/**
 The durable job tables and the meaning of every statement the engine runs on them.
 Each function below is one SQL statement or one immediate transaction, so it is one atomic step.
 */
module JobTable {
  import opened Types

  datatype User = User(admin: bool, active: bool, username: string)
  datatype Profile = Profile(user: UserId, enabled: bool, source: SourceId)
  datatype Booking = Booking(user: UserId, profile: ProfileId, visit: Day, enabled: bool)

  /** The immutable thing being booked: one browser identity on one day. */
  datatype Slot = Slot(profile: ProfileId, visit: Day)

  datatype DB = DB(
    users: map<UserId, User>,
    profiles: map<ProfileId, Profile>,
    sources: map<SourceId, UserId>,
    preferences: map<UserId, SourceId>,
    bookings: map<BookingId, Booking>,
    jobs: map<JobId, Job>,
    decisions: map<JobId, (UserId, Decision)>,
    reservations: map<Slot, Option<JobId>>,
    nextJob: JobId,
    nextProfile: ProfileId)

  const MAX_PENDING: nat := 8
  const MAX_RETAINED: nat := 200
  const MAX_HISTORY: nat := 128

  predicate IsActive(db: DB, u: UserId) {
    u in db.users && db.users[u].active
  }

  function PendingJobs(db: DB, u: UserId): set<JobId> {
    set id | id in db.jobs && db.jobs[id].user == u && Pending(db.jobs[id].status)
  }

  function RetainedJobs(db: DB, u: UserId): set<JobId> {
    set id | id in db.jobs && db.jobs[id].user == u
  }

  function SlotOf(job: Job): Slot {
    Slot(job.profile, job.visit)
  }

  // ---------------------------------------------------------------- reservation triggers

  /** An attempt that can be retried: it ended, and no confirmation may have happened. */
  predicate Unconfirmed(job: Job) {
    job.command == Book && job.marker.None? && job.status in {Failed, Cancelled, Interrupted}
  }

  /** After an update of the status column on the rows `ids`. */
  function Release(res: map<Slot, Option<JobId>>, jobs: map<JobId, Job>, ids: set<JobId>): map<Slot, Option<JobId>> {
    map s | s in res && !(res[s].Some? && res[s].value in ids && res[s].value in jobs && Unconfirmed(jobs[res[s].value])) :: res[s]
  }

  /** Before the deletion of the rows `ids`: retryable attempts release, the others leave a detached guard. */
  function Detach(res: map<Slot, Option<JobId>>, jobs: map<JobId, Job>, ids: set<JobId>): map<Slot, Option<JobId>> {
    var kept := Release(res, jobs, ids);
    map s | s in kept :: if kept[s].Some? && kept[s].value in ids then None else kept[s]
  }

  /** An UPDATE of the rows `ids`: `jobs` holds the new rows. */
  function WithRows(db: DB, jobs: map<JobId, Job>, ids: set<JobId>): DB {
    db.(jobs := jobs, reservations := Release(db.reservations, jobs, ids))
  }

  function WithoutRows(db: DB, ids: set<JobId>): DB {
    db.(jobs := db.jobs - ids,
        decisions := db.decisions - ids,
        reservations := Detach(db.reservations, db.jobs, ids))
  }

  // ---------------------------------------------------------------- transitions

  datatype Update = Update(message: Message, exitCode: Option<int>, confirmationStarted: bool)

  datatype Resolution = BecomesUnknown | BecomesCancelled | AsRequested

  /** Which of the three terminal outcomes a completion write records. */
  function Resolve(job: Job, active: bool, to: JobStatus, starting: bool): Resolution {
    if (job.marker.Some? || starting) && to != Succeeded then BecomesUnknown
    else if job.marker.None? && !starting && (job.cancel || !active) then BecomesCancelled
    else AsRequested
  }

  function Mark(was: Option<Instant>, now: Instant): Option<Instant> {
    if was.Some? then was else Some(now)
  }

  function TransitionRow(job: Job, active: bool, to: JobStatus, u: Update, now: Instant): Job {
    var marker := if u.confirmationStarted then Mark(job.marker, now) else job.marker;
    if Terminal(to) then
      var r := Resolve(job, active, to, u.confirmationStarted);
      job.(status := match r case BecomesUnknown => OutcomeUnknown case BecomesCancelled => Cancelled case AsRequested => to,
           message := match r case BecomesUnknown => OutcomeIsUnknown case BecomesCancelled => CancelRequestedOrDisabled case AsRequested => u.message,
           exitCode := if r.AsRequested? then u.exitCode else None,
           updated := now, marker := marker, finished := Some(now), owner := "")
    else
      job.(status := to, message := u.message, exitCode := u.exitCode, updated := now, marker := marker,
           started := if to == Running then Mark(job.started, now) else job.started)
  }

  function Transition(db: DB, id: JobId, expected: seq<JobStatus>, to: JobStatus, u: Update, now: Instant): Result<DB> {
    if expected == [] || exists i :: 0 <= i < |expected| && !CanTransition(expected[i], to) then Err(Invalid)
    else if id !in db.jobs then Err(NotFound)
    else
      var job := db.jobs[id];
      var active := IsActive(db, job.user);
      if to == OutcomeUnknown && job.marker.None? && !u.confirmationStarted then Err(Invalid)
      else if job.status !in expected || (!Terminal(to) && (job.cancel || !active)) then Err(TransitionConflict)
      else Ok(WithRows(db, db.jobs[id := TransitionRow(job, active, to, u, now)], {id}))
  }

  /** The three transitions the engine asks for. */
  function BeginApproval(db: DB, id: JobId, message: Message, now: Instant): Result<DB> {
    Transition(db, id, [Running], AwaitingApproval, Update(message, None, false), now)
  }

  function ResumeApproved(db: DB, id: JobId, message: Message, now: Instant): Result<DB> {
    Transition(db, id, [AwaitingApproval], Running, Update(message, None, false), now)
  }

  function FinishExpected(status: JobStatus): seq<JobStatus> {
    if status == Succeeded then [Running] else [Running, AwaitingApproval]
  }

  function Finish(db: DB, id: JobId, status: JobStatus, message: Message, exitCode: Option<int>, now: Instant): Result<DB> {
    if id !in db.jobs || Terminal(db.jobs[id].status) then Err(NotFound)
    else Transition(db, id, FinishExpected(status), status, Update(message, exitCode, false), now)
  }

  function MarkConfirmation(db: DB, id: JobId, now: Instant): Result<DB> {
    if id !in db.jobs then Err(TransitionConflict)
    else
      var job := db.jobs[id];
      if !Active(job.status) || job.cancel || !IsActive(db, job.user) then Err(TransitionConflict)
      else Ok(db.(jobs := db.jobs[id := job.(marker := Mark(job.marker, now), updated := now)]))
  }

  // ---------------------------------------------------------------- cancellation, recovery, expiry

  function CancelRow(job: Job, message: Message, now: Instant): Job {
    if job.status == Queued then
      job.(cancel := true, status := Cancelled, message := message, finished := Some(now), updated := now)
    else
      job.(cancel := true, updated := now)
  }

  /** `actor` is 0 for the trusted command-line path. */
  function RequestCancellation(db: DB, actor: UserId, id: JobId, now: Instant): Result<DB> {
    if id !in db.jobs || (actor > 0 && db.jobs[id].user != actor) then Err(NotFound)
    else if !Pending(db.jobs[id].status) && db.jobs[id].status != Cancelled then Err(TransitionConflict)
    else Ok(WithRows(db, db.jobs[id := CancelRow(db.jobs[id], CancelledBeforeExecution, now)], {id}))
  }

  function RecoverRow(job: Job, now: Instant): Job {
    if Active(job.status) then
      job.(status := if job.marker.None? then Interrupted else OutcomeUnknown,
           message := if job.marker.None? then RestartInterrupted else RestartAfterConfirmation,
           owner := "", finished := Some(now), updated := now)
    else job
  }

  function ActiveJobs(db: DB): set<JobId> {
    set id | id in db.jobs && Active(db.jobs[id].status)
  }

  function Recover(db: DB, now: Instant): DB {
    WithRows(db, map id | id in db.jobs :: RecoverRow(db.jobs[id], now), ActiveJobs(db))
  }

  predicate Stale(job: Job, now: Instant) {
    job.status == Queued && job.expires.Some? && job.expires.value <= now
  }

  function ExpireRow(job: Job, now: Instant): Job {
    if Stale(job, now) then
      job.(status := Failed, message := WindowExpired,
           owner := "", finished := Some(now), updated := now)
    else job
  }

  function StaleJobs(db: DB, now: Instant): set<JobId> {
    set id | id in db.jobs && Stale(db.jobs[id], now)
  }

  function Expire(db: DB, now: Instant): DB {
    WithRows(db, map id | id in db.jobs :: ExpireRow(db.jobs[id], now), StaleJobs(db, now))
  }

  // ---------------------------------------------------------------- accounts

  /** Enabling or disabling an account; disabling revokes its pending work in the same transaction. */
  function SetAccount(db: DB, u: UserId, active: bool, now: Instant): Result<DB> {
    if u !in db.users then Err(NotFound)
    else if db.users[u].admin && !active then Err(Conflict)
    else
      var users := db.users[u := db.users[u].(active := active)];
      if active then Ok(db.(users := users))
      else
        Ok(WithRows(db, Revoked(db, u, now), PendingJobs(db, u)).(users := users))
  }

  function Revoked(db: DB, u: UserId, now: Instant): map<JobId, Job> {
    map id | id in db.jobs ::
      if id in PendingJobs(db, u) then CancelRow(db.jobs[id], AccountWasDisabled, now) else db.jobs[id]
  }

  function ProfilesOf(db: DB, u: UserId): set<ProfileId> {
    set p | p in db.profiles && db.profiles[p].user == u
  }

  /** Guards go with their profile. */
  function WithoutProfiles(db: DB, gone: set<ProfileId>): DB {
    db.(profiles := db.profiles - gone,
        reservations := map s | s in db.reservations && s.profile !in gone :: db.reservations[s])
  }

  function DeleteMember(db: DB, u: UserId, confirmed: string): Result<DB> {
    if u !in db.users then Err(NotFound)
    else if db.users[u].admin || db.users[u].active || db.users[u].username != confirmed then Err(Conflict)
    else
      var mine := RetainedJobs(db, u);
      if exists id :: id in mine && Pending(db.jobs[id].status) then Err(Conflict)
      else
        var gone := ProfilesOf(db, u);
        var without := WithoutRows(db, mine);
        if exists id :: id in without.jobs && without.jobs[id].profile in gone then Err(Conflict)
        else
          Ok(WithoutProfiles(without, gone).(
             users := db.users - {u},
             bookings := map b | b in db.bookings && db.bookings[b].user != u :: db.bookings[b],
             sources := map s | s in db.sources && db.sources[s] != u :: db.sources[s],
             preferences := db.preferences - {u}))
  }

  function AddProfile(db: DB, profile: Profile): DB {
    db.(profiles := db.profiles[db.nextProfile := profile], nextProfile := db.nextProfile + 1)
  }

  /** Jobs and requests restrict the deletion of their profile; guards go with it, and its id is never used again. */
  function DeleteProfile(db: DB, u: UserId, p: ProfileId): Result<DB> {
    if p !in db.profiles || db.profiles[p].user != u then Err(NotFound)
    else if exists id :: id in db.jobs && db.jobs[id].profile == p then Err(Conflict)
    else if exists b :: b in db.bookings && db.bookings[b].profile == p then Err(Conflict)
    else Ok(WithoutProfiles(db, {p}))
  }

  // ---------------------------------------------------------------- decisions

  datatype Recorded = Recorded(db: DB, answer: Result<Decision>)

  function RecordDecision(db: DB, u: UserId, id: JobId, d: Decision): Recorded {
    var admitted := id in db.jobs && db.jobs[id].user == u && db.jobs[id].status == AwaitingApproval && IsActive(db, u);
    var db' := if admitted && id !in db.decisions then db.(decisions := db.decisions[id := (u, d)]) else db;
    if id in db'.decisions && db'.decisions[id].0 == u then
      if db'.decisions[id].1 == d then Recorded(db', Ok(d)) else Recorded(db', Err(DecisionConflict))
    else if id in db.jobs && db.jobs[id].user == u then Recorded(db', Err(TransitionConflict))
    else Recorded(db', Err(NotFound))
  }

  // ---------------------------------------------------------------- enqueue

  datatype Params = Params(
    booking: Option<BookingId>,
    profile: ProfileId,
    source: SourceId,
    dedupSignIn: bool,
    command: Command,
    mode: RunMode,
    immediate: bool,
    due: Option<Instant>,
    expires: Option<Instant>,
    dedup: string)

  function NormalMode(p: Params): Option<RunMode> {
    match p.command
    case AuthCheck => Some(Manual)
    case DryRun => Some(ModeDryRun)
    case Book => if p.mode == ModeDryRun then None else Some(p.mode)
  }

  function DueOf(p: Params, now: Instant): Instant {
    if p.due.Some? then p.due.value else now
  }

  /** The checks made before any row is read. */
  predicate TimingAdmitted(p: Params, mode: RunMode, now: Instant) {
    var due := DueOf(p, now);
    && (p.expires.Some? ==> p.expires.value > due)
    && ValidImmediateRun(p.immediate, p.command, mode, due, p.expires)
    && (p.immediate ==> p.expires.Some? && due <= now < p.expires.value)
  }

  predicate PairingKey(key: string) {
    "pairing:" <= key
  }

  /** The unique indexes a new queued row could violate. */
  predicate UniqueRow(db: DB, job: Job) {
    && (job.dedup != "" ==> forall id :: id in db.jobs ==> db.jobs[id].dedup != job.dedup)
    && (job.booking.Some? ==> forall id :: id in db.jobs && Pending(db.jobs[id].status) ==>
          !(db.jobs[id].user == job.user && db.jobs[id].booking == job.booking && db.jobs[id].command == job.command && db.jobs[id].mode == job.mode))
    && (job.booking.None? && job.command == AuthCheck && PairingKey(job.dedup) ==>
          forall id :: id in db.jobs && Pending(db.jobs[id].status) ==>
            !(db.jobs[id].booking.None? && db.jobs[id].command == AuthCheck && PairingKey(db.jobs[id].dedup) && db.jobs[id].source == job.source))
    && (job.command == Book ==> SlotOf(job) !in db.reservations)
  }

  predicate PendingSignIn(db: DB, profile: ProfileId, user: UserId) {
    exists id ::
      && id in db.jobs && Pending(db.jobs[id].status)
      && db.jobs[id].profile == profile && db.jobs[id].user == user
      && db.jobs[id].booking.None? && db.jobs[id].command == AuthCheck
  }

  /** The row the transaction would insert, once every lookup has been made. */
  function Admit(db: DB, actor: UserId, p: Params, now: Instant): Result<Job> {
    var mode := NormalMode(p);
    if (p.source != 0 && p.command != AuthCheck) || mode.None? || (p.command != AuthCheck && p.booking.None?) then Err(Invalid)
    else if !TimingAdmitted(p, mode.value, now) then Err(Invalid)
    else if p.booking.Some? && (p.booking.value !in db.bookings || (actor > 0 && db.bookings[p.booking.value].user != actor)) then Err(NotFound)
    else if p.booking.Some? && !db.bookings[p.booking.value].enabled then Err(Invalid)
    else if p.booking.Some? && p.profile != 0 && p.profile != db.bookings[p.booking.value].profile then Err(Invalid)
    else
      var profile := if p.booking.Some? then db.bookings[p.booking.value].profile else p.profile;
      if profile == 0 then Err(Invalid)
      else if profile !in db.profiles || !db.profiles[profile].enabled || (actor > 0 && db.profiles[profile].user != actor) then
        Err(if actor > 0 then NotFound else Invalid)
      else
        var user := db.profiles[profile].user;
        if p.booking.Some? && db.bookings[p.booking.value].user != user then Err(Conflict)
        else if p.dedupSignIn && (p.command != AuthCheck || p.booking.Some?) then Err(Invalid)
        else if p.dedupSignIn && PendingSignIn(db, profile, user) then Err(Conflict)
        else
          var source := if p.source != 0 then p.source else if user in db.preferences then db.preferences[user] else db.profiles[profile].source;
          if source !in db.sources || db.sources[source] != user then Err(NotFound)
          else
            Ok(Job(user, p.booking, profile, source, p.command, mode.value, p.immediate,
                   if p.booking.Some? then db.bookings[p.booking.value].visit else 0,
                   Queued, DueOf(p, now), p.expires, p.dedup, "", false, NoMessage, None, None, now, None, None))
  }

  /** The row's key keeps a schedule from being queued twice, until its window has passed. */
  predicate StillDeduplicates(job: Job, now: Instant) {
    job.dedup != "" && !PairingKey(job.dedup) && (job.expires.Some? ==> now < job.expires.value)
  }

  /** The rows a per-user retention pass removes; see module Retention for what it keeps. */
  predicate Prunable(job: Job, now: Instant)
    ensures Prunable(job, now) <==> Terminal(job.status) && job.status != OutcomeUnknown && !StillDeduplicates(job, now)
  {
    && job.status in {Succeeded, Failed, Cancelled, Interrupted}
    && (job.dedup == "" || PairingKey(job.dedup) || (job.expires.Some? && job.expires.value <= now))
  }

  predicate NewerOrSame(db: DB, a: JobId, b: JobId)
    requires a in db.jobs && b in db.jobs
  {
    db.jobs[a].updated > db.jobs[b].updated || (db.jobs[a].updated == db.jobs[b].updated && a >= b)
  }

  /** The window row_number() OVER (PARTITION BY user_id ORDER BY updated_at DESC, id DESC); `u` is 0 for every user. */
  function RetentionRank(db: DB, u: UserId, now: Instant, id: JobId): nat
    requires id in db.jobs
  {
    |set k | k in db.jobs && Prunable(db.jobs[k], now) && (u == 0 || db.jobs[k].user == u)
          && db.jobs[k].user == db.jobs[id].user && NewerOrSame(db, k, id)|
  }

  function Excess(db: DB, u: UserId, now: Instant): set<JobId> {
    set id | id in db.jobs && Prunable(db.jobs[id], now) && (u == 0 || db.jobs[id].user == u) && RetentionRank(db, u, now, id) > MAX_HISTORY
  }

  function Prune(db: DB, u: UserId, now: Instant): DB {
    WithoutRows(db, Excess(db, u, now))
  }

  function Enqueue(db: DB, actor: UserId, p: Params, now: Instant): Result<DB> {
    var row := Admit(db, actor, p, now);
    if row.Err? then Err(row.error)
    else
      var job := row.value;
      var db' := Prune(db, job.user, now);
      if !IsActive(db', job.user) then Err(NotFound)
      else if |RetainedJobs(db', job.user)| >= MAX_RETAINED || |PendingJobs(db', job.user)| >= MAX_PENDING then Err(ResourceLimit)
      else if !UniqueRow(db', job) then Err(Conflict)
      else Ok(WithNewRow(db', job))
  }

  /** INSERT, and the trigger that reserves the slot of a book job. */
  function WithNewRow(db: DB, job: Job): DB {
    db.(jobs := db.jobs[db.nextJob := job], nextJob := db.nextJob + 1,
        reservations := if job.command == Book then db.reservations[SlotOf(job) := Some(db.nextJob)] else db.reservations)
  }

  // ---------------------------------------------------------------- claim

  /** A due job whose profile and OTP source are both free. */
  predicate Claimable(db: DB, id: JobId, now: Instant)
    requires id in db.jobs
  {
    var job := db.jobs[id];
    && job.status == Queued && !job.cancel && job.due <= now
    && (job.expires.None? || job.expires.value > now)
    && IsActive(db, job.user)
    && job.profile in db.profiles && db.profiles[job.profile].user == job.user && db.profiles[job.profile].enabled
    && job.source in db.sources && db.sources[job.source] == job.user
    && (job.command == Book ==> exists s :: s in db.reservations && db.reservations[s] == Some(id) && s.profile == job.profile)
    && (job.booking.Some? ==> job.booking.value in db.bookings && db.bookings[job.booking.value].enabled
                              && db.bookings[job.booking.value].profile == job.profile)
    && !(exists k :: k in db.jobs && Active(db.jobs[k].status) && (db.jobs[k].profile == job.profile || db.jobs[k].source == job.source))
  }

  predicate DueBefore(db: DB, a: JobId, b: JobId)
    requires a in db.jobs && b in db.jobs
  {
    db.jobs[a].due < db.jobs[b].due || (db.jobs[a].due == db.jobs[b].due && a <= b)
  }

  function Candidates(db: DB, now: Instant): set<JobId> {
    set id | id in db.jobs && Claimable(db, id, now)
  }

  lemma {:induction false} LeastDue(db: DB, ids: set<JobId>) returns (id: JobId)
    requires ids != {} && ids <= db.jobs.Keys
    ensures id in ids && forall k :: k in ids ==> DueBefore(db, id, k)
    decreases |ids|
  {
    id :| id in ids;
    var one, rest := id, ids - {id};
    if rest != {} {
      var least := LeastDue(db, rest);
      id := if DueBefore(db, one, least) then one else least;
      forall k | k in ids ensures DueBefore(db, id, k) {
        assert k == one || k in rest;
      }
    } else {
      assert ids == {one};
    }
  }

  lemma FirstDueExists(db: DB, ids: set<JobId>)
    requires ids != {} && ids <= db.jobs.Keys
    ensures exists id :: id in ids && forall k :: k in ids ==> DueBefore(db, id, k)
  {
    var id := LeastDue(db, ids);
  }

  /** ORDER BY due_at, id LIMIT 1. */
  function FirstDue(db: DB, ids: set<JobId>): (id: JobId)
    requires ids != {} && ids <= db.jobs.Keys
    ensures id in ids && forall k :: k in ids ==> DueBefore(db, id, k)
  {
    FirstDueExists(db, ids);
    var id :| id in ids && forall k :: k in ids ==> DueBefore(db, id, k);
    id
  }

  function ClaimRow(job: Job, owner: string, now: Instant): Job {
    job.(status := Running, owner := owner, started := Mark(job.started, now), updated := now)
  }

  function Lease(db: DB, id: JobId, owner: string, now: Instant): DB
    requires id in db.jobs
  {
    db.(jobs := db.jobs[id := ClaimRow(db.jobs[id], owner, now)])
  }

  /** Expire what is stale, then lease the first due claimable job. */
  function Claim(db: DB, owner: string, now: Instant): Result<DB> {
    if owner == "" then Err(Invalid)
    else
      var swept := Expire(db, now);
      if Candidates(swept, now) == {} then Ok(swept)
      else Ok(Lease(swept, FirstDue(swept, Candidates(swept, now)), owner, now))
  }

  // ---------------------------------------------------------------- detached guards

  /** Guards of pruned jobs go once the visit day has passed everywhere. */
  function PurgeGuards(db: DB, today: Day): DB {
    db.(reservations := map s | s in db.reservations && !(db.reservations[s].None? && s.visit < today - 1) :: db.reservations[s])
  }
}
