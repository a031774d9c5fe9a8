/** The store object: each method runs its statements against the tables and is proved against their meaning. */
module Store {
  import opened Types
  import opened JobTable
  import opened JobInvariants
  import opened JobRuns
  import A = Admission
  import F = JobEffects
  import R = Retention
  import Q = TransitionQuery

  class Store {
    var db: DB

    constructor (users: map<UserId, User>)
      ensures db == EmptyDB(users) && Wf(db)
    {
      db := EmptyDB(users);
    }

    /** Reads, builds the positional statement, runs it; the outcome is exactly the intended transition. */
    method SystemTransitionJob(id: JobId, expected: seq<JobStatus>, to: JobStatus, u: Update, now: Instant) returns (failure: Option<Error>)
      modifies this
      ensures failure == (match Transition(old(db), id, expected, to, u, now) case Ok(_) => None case Err(e) => Some(e))
      ensures db == Settle(old(db), Transition(old(db), id, expected, to, u, now))
    {
      if |expected| == 0 {
        return Some(Invalid);
      }
      for i := 0 to |expected|
        invariant db == old(db)
        invariant forall k :: 0 <= k < i ==> CanTransition(expected[k], to)
      {
        if !CanTransition(expected[i], to) {
          return Some(Invalid);
        }
      }
      if id !in db.jobs {
        return Some(NotFound);
      }
      var current := db.jobs[id];
      if to == OutcomeUnknown && current.marker.None? && !u.confirmationStarted {
        return Some(Invalid);
      }
      assert CanTransition(expected[0], to);
      var query, args := Q.Build(id, expected, to, u, now, current, IsActive(db, current.user));
      StatesBound(expected, current.status);
      match Q.Execute(db, query, args)
      case BindError =>
        assert false;
      case NoRow =>
        failure := Some(TransitionConflict);
      case Updated(tables) =>
        db := tables;
        failure := None;
    }

    method SystemMarkConfirmationStarted(id: JobId, now: Instant) returns (failure: Option<Error>)
      modifies this
      ensures db == Settle(old(db), MarkConfirmation(old(db), id, now))
      ensures failure.None? <==> id in old(db).jobs && Active(old(db).jobs[id].status) && !old(db).jobs[id].cancel && IsActive(old(db), old(db).jobs[id].user)
      ensures failure.None? ==> db.jobs[id].marker == (if old(db).jobs[id].marker.Some? then old(db).jobs[id].marker else Some(now))
      ensures failure.Some? ==> db == old(db)
    {
      if id !in db.jobs {
        return Some(TransitionConflict);
      }
      var job := db.jobs[id];
      if !Active(job.status) || job.cancel || !IsActive(db, job.user) {
        return Some(TransitionConflict);
      }
      db := db.(jobs := db.jobs[id := job.(marker := Mark(job.marker, now), updated := now)]);
      failure := None;
    }

    method RequestJobCancellation(actor: UserId, id: JobId, now: Instant) returns (failure: Option<Error>)
      modifies this
      ensures failure == (match RequestCancellation(old(db), actor, id, now) case Ok(_) => None case Err(e) => Some(e))
      ensures db == Settle(old(db), RequestCancellation(old(db), actor, id, now))
    {
      var visible := id in db.jobs && (actor == 0 || db.jobs[id].user == actor);
      if visible && (Pending(db.jobs[id].status) || db.jobs[id].status == Cancelled) {
        db := WithRows(db, db.jobs[id := CancelRow(db.jobs[id], CancelledBeforeExecution, now)], {id});
        return None;
      }
      // tell a missing job from one that already ended
      failure := Some(if visible then TransitionConflict else NotFound);
    }

    method SystemRecoverInterruptedJobs(now: Instant) returns (count: nat)
      modifies this
      ensures db == Recover(old(db), now) && count == |ActiveJobs(old(db))|
      ensures forall id :: id in db.jobs ==> !Active(db.jobs[id].status)
    {
      count := |ActiveJobs(db)|;
      db := WithRows(db, map id | id in db.jobs :: RecoverRow(db.jobs[id], now), ActiveJobs(db));
    }

    method SystemExpireStaleJobs(now: Instant)
      modifies this
      ensures db == Expire(old(db), now)
      ensures forall id :: id in db.jobs ==> !Stale(db.jobs[id], now)
      ensures forall id :: id in old(db).jobs && !Stale(old(db).jobs[id], now) ==> id in db.jobs && db.jobs[id] == old(db).jobs[id]
    {
      db := WithRows(db, map id | id in db.jobs :: ExpireRow(db.jobs[id], now), StaleJobs(db, now));
    }

    /** `claimed` is the leased job, if any was claimable. */
    method SystemClaimNextDueJobAt(owner: string, now: Instant) returns (claimed: Option<JobId>)
      requires owner != ""
      modifies this
      ensures db == Claim(old(db), owner, now).value
      // a job is claimed only when it is due, unexpired, uncancelled and free to run, and the first of those is
      ensures claimed.Some? ==> claimed.value in old(db).jobs && F.Ready(old(db), claimed.value, now)
      ensures claimed.Some? ==> claimed.value in db.jobs && F.StartedBy(old(db).jobs[claimed.value], db.jobs[claimed.value], owner, now)
      ensures Wf(old(db)) && claimed.Some? ==> F.NextToStart(old(db), claimed.value, now)
      ensures Wf(old(db)) && claimed.None? ==> forall k :: k in old(db).jobs ==> !F.Ready(old(db), k, now)
    {
      ghost var was := db;
      ExpiryKeepsCandidates(db, now);
      SystemExpireStaleJobs(now);
      var candidates := Candidates(db, now);
      if candidates == {} {
        NobodyReady(was, now);
        return None;
      }
      var id := FirstDue(db, candidates);
      forall k | k in candidates ensures DueBefore(was, id, k) {
        assert DueBefore(db, id, k);
      }
      FirstIsReady(was, now, id);
      db := db.(jobs := db.jobs[id := ClaimRow(db.jobs[id], owner, now)]);
      claimed := Some(id);
    }

    /** The lookups of enqueueJobTx, which settle profile, owner and source step by step. */
    method AdmitJob(actor: UserId, p: Params, now: Instant) returns (row: Result<Job>)
      ensures row == Admit(db, actor, p, now)
      // admitted exactly when all it names fits together; it gets the source named, or preferred, or the profile's own
      ensures row.Ok? <==> && A.WellAsked(p, now) && A.RequestFits(db, actor, p) && A.ProfileFits(db, actor, p) && A.SourceFits(db, p)
                           && !(p.dedupSignIn && A.SignInPending(db, A.ProfileFor(db, p)))
      ensures row.Ok? ==> row.value.profile in db.profiles
      ensures row.Ok? ==> row.value.source == if p.source != 0 then p.source
                                              else if row.value.user in db.preferences then db.preferences[row.value.user]
                                              else db.profiles[row.value.profile].source
      ensures row.Ok? ==> row.value.due == (if p.due.Some? then p.due.value else now) && row.value.expires == p.expires && row.value.dedup == p.dedup
    {
      A.AdmittedExactly(db, actor, p, now);
      ChosenRow(db, actor, p, now);
      if p.source != 0 && p.command != AuthCheck {
        return Err(Invalid);
      }
      var mode := p.mode;
      match p.command {
        case AuthCheck => mode := Manual;
        case DryRun => mode := ModeDryRun;
        case Book =>
          if mode == ModeDryRun {
            return Err(Invalid);
          }
      }
      if p.command != AuthCheck && p.booking.None? {
        return Err(Invalid);
      }
      var due := if p.due.Some? then p.due.value else now;
      if p.expires.Some? && p.expires.value <= due {
        return Err(Invalid);
      }
      if !ValidImmediateRun(p.immediate, p.command, mode, due, p.expires) || (p.immediate && (due > now || p.expires.value <= now)) {
        return Err(Invalid);
      }
      var profile, owner, visit := p.profile, 0, 0;
      if p.booking.Some? {
        if p.booking.value !in db.bookings || (actor > 0 && db.bookings[p.booking.value].user != actor) {
          return Err(NotFound);
        }
        var booking := db.bookings[p.booking.value];
        if !booking.enabled || (profile != 0 && profile != booking.profile) {
          return Err(Invalid);
        }
        profile, owner, visit := booking.profile, booking.user, booking.visit;
      }
      if profile == 0 {
        return Err(Invalid);
      }
      if profile !in db.profiles || !db.profiles[profile].enabled || (actor > 0 && db.profiles[profile].user != actor) {
        return Err(if actor > 0 then NotFound else Invalid);
      }
      if p.booking.Some? && owner != db.profiles[profile].user {
        return Err(Conflict);
      }
      owner := db.profiles[profile].user;
      if p.dedupSignIn {
        if p.command != AuthCheck || p.booking.Some? {
          return Err(Invalid);
        }
        if PendingSignIn(db, profile, owner) {
          return Err(Conflict);
        }
      }
      var source := db.profiles[profile].source;
      if p.source != 0 {
        source := p.source;
      } else if owner in db.preferences {
        source := db.preferences[owner];
      }
      if source !in db.sources || db.sources[source] != owner {
        return Err(NotFound);
      }
      row := Ok(Job(owner, p.booking, profile, source, p.command, mode, p.immediate, visit, Queued, due, p.expires, p.dedup, "", false,
                    NoMessage, None, None, now, None, None));
    }

    method EnqueueJob(actor: UserId, p: Params, now: Instant) returns (queued: Result<JobId>)
      modifies this
      ensures db == Settle(old(db), Enqueue(old(db), actor, p, now))
      ensures queued.Ok? <==> Enqueue(old(db), actor, p, now).Ok?
      ensures queued.Ok? ==> queued.value == old(db).nextJob && queued.value in db.jobs && db.jobs[queued.value].status == Queued
    {
      var row := AdmitJob(actor, p, now);
      if row.Err? {
        return Err(row.error);
      }
      var job := row.value;
      var tx := Prune(db, job.user, now);
      if !IsActive(tx, job.user) {
        return Err(NotFound);
      }
      if |RetainedJobs(tx, job.user)| >= MAX_RETAINED || |PendingJobs(tx, job.user)| >= MAX_PENDING {
        return Err(ResourceLimit);
      }
      if !UniqueRow(tx, job) {
        return Err(Conflict);
      }
      db := WithNewRow(tx, job);
      queued := Ok(tx.nextJob);
    }

    method RecordJobDecision(u: UserId, id: JobId, d: Decision) returns (answer: Result<Decision>)
      modifies this
      ensures db == RecordDecision(old(db), u, id, d).db && answer == RecordDecision(old(db), u, id, d).answer
      ensures answer == Ok(d) ==> id in db.decisions && db.decisions[id] == (u, d)
    {
      if id in db.jobs && db.jobs[id].user == u && db.jobs[id].status == AwaitingApproval && IsActive(db, u) && id !in db.decisions {
        db := db.(decisions := db.decisions[id := (u, d)]);
      }
      if id in db.decisions && db.decisions[id].0 == u {
        return if db.decisions[id].1 == d then Ok(d) else Err(DecisionConflict);
      }
      answer := Err(if id in db.jobs && db.jobs[id].user == u then TransitionConflict else NotFound);
    }

    method UpdateUser(u: UserId, active: bool, now: Instant) returns (failure: Option<Error>)
      modifies this
      ensures db == Settle(old(db), SetAccount(old(db), u, active, now))
      ensures failure.None? <==> SetAccount(old(db), u, active, now).Ok?
      ensures failure.None? && !active ==>
                forall id :: id in db.jobs && db.jobs[id].user == u && Pending(old(db).jobs[id].status) ==> db.jobs[id].cancel && db.jobs[id].status != Queued
    {
      if u !in db.users {
        return Some(NotFound);
      }
      if db.users[u].admin && !active {
        return Some(Conflict);
      }
      var users := db.users[u := db.users[u].(active := active)];
      if !active {
        db := WithRows(db, Revoked(db, u, now), PendingJobs(db, u));
      }
      db := db.(users := users);
      failure := None;
    }

    /**
     Maintenance. A guard that outlived its row goes once its day has passed everywhere; the rows removed after that leave
     new ones, which only the next pass can remove.
     */
    method SystemPruneTerminalJobs(now: Instant) returns (count: nat)
      modifies this
      ensures db == Prune(PurgeGuards(old(db), Today(now)), 0, now)
      ensures forall u :: R.NewestKept(old(db), db, u, now)
      ensures forall id :: id in db.jobs ==> id in old(db).jobs && db.jobs[id] == old(db).jobs[id]
      ensures forall id :: id in old(db).jobs && !Prunable(old(db).jobs[id], now) ==> id in db.jobs
      ensures |old(db).jobs| == |db.jobs| + count
      ensures forall s :: s in old(db).reservations && s.visit < Today(now) - 1 ==>
                (s in db.reservations && db.reservations[s].None? <==> LeftByRemoved(old(db), db, s))
    {
      PassKeepsTheNewest(db, now);
      PassGuards(db, now);
      db := PurgeGuards(db, Today(now));
      var gone := Excess(db, 0, now);
      RemovedSize(db.jobs, gone);
      db := WithoutRows(db, gone);
      count := |gone|;
    }
  }

  lemma NobodyReady(db: DB, now: Instant)
    requires Candidates(db, now) == {}
    ensures Wf(db) ==> forall k :: k in db.jobs ==> !F.Ready(db, k, now)
  {
    if Wf(db) {
      forall k | k in db.jobs ensures !F.Ready(db, k, now) {
        F.NoneReady(db, now, k);
      }
    }
  }

  lemma FirstIsReady(db: DB, now: Instant, id: JobId)
    requires id in Candidates(db, now) && forall k :: k in Candidates(db, now) ==> DueBefore(db, id, k)
    ensures F.Ready(db, id, now) && (Wf(db) ==> F.NextToStart(db, id, now))
  {
    F.ClaimableIsReady(db, id, now);
    if Wf(db) {
      F.FirstCandidateIsNext(db, id, now);
    }
  }

  lemma ChosenRow(db: DB, actor: UserId, p: Params, now: Instant)
    ensures var row := Admit(db, actor, p, now);
            row.Ok? ==> && row.value.profile in db.profiles
                        && row.value.source == (if p.source != 0 then p.source
                                                else if row.value.user in db.preferences then db.preferences[row.value.user]
                                                else db.profiles[row.value.profile].source)
                        && row.value.due == (if p.due.Some? then p.due.value else now) && row.value.expires == p.expires && row.value.dedup == p.dedup
  {
    if Admit(db, actor, p, now).Ok? {
      AdmissionIsSound(db, actor, p, now);
    }
  }

  lemma PassKeepsTheNewest(db: DB, now: Instant)
    ensures forall u :: R.NewestKept(db, Prune(PurgeGuards(db, Today(now)), 0, now), u, now)
  {
    var purged := PurgeGuards(db, Today(now));
    forall u ensures R.NewestKept(db, Prune(purged, 0, now), u, now) {
      R.PruneKeepsTheNewest(purged, 0, u, now);
      assert R.Eligible(db, u, now) == R.Eligible(purged, u, now);
    }
  }

  lemma PassGuards(db: DB, now: Instant)
    ensures var db' := Prune(PurgeGuards(db, Today(now)), 0, now);
            forall s :: s in db.reservations && s.visit < Today(now) - 1 ==>
              (s in db'.reservations && db'.reservations[s].None? <==> LeftByRemoved(db, db', s))
  {
  }

  /** The slot was held by a row that is gone, and not as one that cannot have been confirmed. */
  predicate LeftByRemoved(db: DB, db': DB, s: Slot)
    requires s in db.reservations
  {
    db.reservations[s].Some? && var id := db.reservations[s].value; id in db.jobs && id !in db'.jobs && !Unconfirmed(db.jobs[id])
  }

  lemma RemovedSize(jobs: map<JobId, Job>, gone: set<JobId>)
    requires gone <= jobs.Keys
    ensures |jobs| == |jobs - gone| + |gone|
  {
    assert (jobs - gone).Keys == jobs.Keys - gone;
    assert |jobs.Keys| == |jobs| && |(jobs - gone).Keys| == |jobs - gone|;
  }

  lemma StatesBound(expected: seq<JobStatus>, s: JobStatus)
    ensures Q.VStatus(s) in Q.StatusValues(expected) <==> s in expected
  {
    var values := Q.StatusValues(expected);
    if s in expected {
      var i :| 0 <= i < |expected| && expected[i] == s;
      assert values[i] == Q.VStatus(s);
    }
  }
}
