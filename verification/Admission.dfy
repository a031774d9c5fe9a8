/** Who may enqueue what: exactly when a job is admitted and inserted, why it is refused, and which rows can never coexist. */
module Admission {
  import opened Types
  import opened JobTable
  import opened JobInvariants
  import opened JobRuns

  // ---------------------------------------------------------------- admission

  /** What is asked for makes sense by itself: command, mode, source and request fit, and the timing is possible now. */
  predicate WellAsked(p: Params, now: Instant) {
    var due := if p.due.Some? then p.due.value else now;
    && (p.source != 0 ==> p.command == AuthCheck)
    && (p.command == Book ==> p.mode == Manual || p.mode == Auto)
    && (p.booking.None? ==> p.command == AuthCheck)
    && (p.dedupSignIn ==> p.command == AuthCheck && p.booking.None?)
    && (p.booking.None? ==> p.profile != 0)
    && (p.expires.Some? ==> due < p.expires.value)
    && (p.immediate ==>
          && p.command == Book && p.mode == Manual && p.expires.Some?
          && due <= now < p.expires.value && p.expires.value - due <= 15 * 60 * 1_000_000_000)
  }

  /** The request exists, is enabled, is the actor's if there is one, and is for the profile that was named, if one was. */
  predicate RequestFits(db: DB, actor: UserId, p: Params) {
    p.booking.Some? ==>
      && p.booking.value in db.bookings
      && var request := db.bookings[p.booking.value];
         request.enabled && request.profile != 0 && (actor != 0 ==> request.user == actor) && (p.profile != 0 ==> p.profile == request.profile)
  }

  function ProfileFor(db: DB, p: Params): ProfileId {
    if p.booking.Some? && p.booking.value in db.bookings then db.bookings[p.booking.value].profile else p.profile
  }

  /** Its profile exists, is enabled, is the actor's if there is one, and has the owner of the request. */
  predicate ProfileFits(db: DB, actor: UserId, p: Params) {
    var profile := ProfileFor(db, p);
    && profile in db.profiles && db.profiles[profile].enabled && (actor != 0 ==> db.profiles[profile].user == actor)
    && (p.booking.Some? && p.booking.value in db.bookings ==> db.bookings[p.booking.value].user == db.profiles[profile].user)
  }

  /** Its code source is the one named, or the owner's preferred one, or the profile's; and it is the owner's. */
  predicate SourceFits(db: DB, p: Params)
    requires ProfileFor(db, p) in db.profiles
  {
    var profile := db.profiles[ProfileFor(db, p)];
    var source := if p.source != 0 then p.source else if profile.user in db.preferences then db.preferences[profile.user] else profile.source;
    source in db.sources && db.sources[source] == profile.user
  }

  /** Another sign-in of the profile is still to be done. */
  ghost predicate SignInPending(db: DB, profile: ProfileId) {
    && profile in db.profiles
    && exists id ::
         && id in db.jobs && db.jobs[id].status in {Queued, Running, AwaitingApproval}
         && db.jobs[id].command == AuthCheck && db.jobs[id].booking.None?
         && db.jobs[id].profile == profile && db.jobs[id].user == db.profiles[profile].user
  }

  lemma AskedExactly(p: Params, now: Instant)
    ensures WellAsked(p, now) <==>
              && !(p.source != 0 && p.command != AuthCheck) && NormalMode(p).Some? && !(p.command != AuthCheck && p.booking.None?)
              && TimingAdmitted(p, NormalMode(p).value, now)
              && !(p.dedupSignIn && (p.command != AuthCheck || p.booking.Some?)) && !(p.booking.None? && p.profile == 0)
  {
  }

  lemma PendingExactly(db: DB, profile: ProfileId)
    requires profile in db.profiles
    ensures PendingSignIn(db, profile, db.profiles[profile].user) <==> SignInPending(db, profile)
  {
  }

  /** A job is admitted exactly when what is asked makes sense and all it names exists, is enabled and has one owner. */
  lemma AdmittedExactly(db: DB, actor: UserId, p: Params, now: Instant)
    ensures Admit(db, actor, p, now).Ok? <==>
              && WellAsked(p, now) && RequestFits(db, actor, p) && ProfileFits(db, actor, p) && SourceFits(db, p)
              && !(p.dedupSignIn && SignInPending(db, ProfileFor(db, p)))
  {
    AskedExactly(p, now);
    if ProfileFor(db, p) in db.profiles {
      PendingExactly(db, ProfileFor(db, p));
    }
  }

  /** Why a job is refused: what cannot be asked, what is not there for the actor, or what clashes. */
  lemma RefusedBecause(db: DB, actor: UserId, p: Params, now: Instant)
    ensures var r := Admit(db, actor, p, now);
            && (r == Err(Conflict) ==>
                  && ProfileFor(db, p) in db.profiles
                  && (|| (p.booking.Some? && p.booking.value in db.bookings && db.bookings[p.booking.value].user != db.profiles[ProfileFor(db, p)].user)
                      || (p.dedupSignIn && SignInPending(db, ProfileFor(db, p)))))
            && (r == Err(NotFound) ==>
                  || (p.booking.Some? && (p.booking.value !in db.bookings || (actor != 0 && db.bookings[p.booking.value].user != actor)))
                  || (actor != 0 && (ProfileFor(db, p) !in db.profiles || !db.profiles[ProfileFor(db, p)].enabled || db.profiles[ProfileFor(db, p)].user != actor))
                  || (ProfileFor(db, p) in db.profiles && !SourceFits(db, p)))
            && (r == Err(Invalid) ==>
                  || !WellAsked(p, now) || !RequestFits(db, actor, p)
                  || (actor == 0 && (ProfileFor(db, p) !in db.profiles || !db.profiles[ProfileFor(db, p)].enabled)))
            && (r.Err? ==> r.error in {Conflict, NotFound, Invalid})
  {
    AskedExactly(p, now);
    if ProfileFor(db, p) in db.profiles {
      PendingExactly(db, ProfileFor(db, p));
    }
  }

  // ---------------------------------------------------------------- insertion

  /** Rows that cannot coexist: a shared key, two pending runs of one request in one mode, two pending pairings of a source, a taken slot. */
  ghost predicate Clash(db: DB, job: Job) {
    || (exists id :: id in db.jobs && db.jobs[id].dedup != "" && db.jobs[id].dedup == job.dedup)
    || (exists id :: id in db.jobs && Pending(db.jobs[id].status) && SameRequest(db.jobs[id], job))
    || (exists id :: id in db.jobs && Pending(db.jobs[id].status) && SamePairing(db.jobs[id], job))
    || (job.command == Book && Slot(job.profile, job.visit) in db.reservations)
  }

  predicate SameRequest(a: Job, b: Job) {
    a.booking.Some? && a.booking == b.booking && a.user == b.user && a.command == b.command && a.mode == b.mode
  }

  predicate Pairing(job: Job) {
    job.booking.None? && job.command == AuthCheck && |job.dedup| >= 8 && job.dedup[..8] == "pairing:"
  }

  predicate SamePairing(a: Job, b: Job) {
    Pairing(a) && Pairing(b) && a.source == b.source
  }

  lemma PairingKeyIs(key: string)
    ensures PairingKey(key) <==> |key| >= 8 && key[..8] == "pairing:"
  {
    assert |"pairing:"| == 8;
  }

  lemma UniqueExactly(db: DB, job: Job)
    ensures UniqueRow(db, job) <==> !Clash(db, job)
  {
    PairingKeyIs(job.dedup);
    forall id | id in db.jobs ensures PairingKey(db.jobs[id].dedup) <==> |db.jobs[id].dedup| >= 8 && db.jobs[id].dedup[..8] == "pairing:" {
      PairingKeyIs(db.jobs[id].dedup);
    }
  }

  /** A job is inserted exactly when it is admitted, its account is active and within its quotas, and it clashes with no row that stays. */
  lemma EnqueuedExactly(db: DB, actor: UserId, p: Params, now: Instant)
    ensures var row, r := Admit(db, actor, p, now), Enqueue(db, actor, p, now);
            && (r.Ok? ==> row.Ok?)
            && (row.Ok? ==>
                  var job := row.value; var kept := Prune(db, job.user, now);
                  && (r.Ok? <==>
                        && job.user in db.users && db.users[job.user].active
                        && |PendingJobs(kept, job.user)| < 8 && |RetainedJobs(kept, job.user)| < 200 && !Clash(kept, job))
                  && (r.Err? ==> r.error == if !IsActive(db, job.user) then NotFound
                                            else if |PendingJobs(kept, job.user)| >= 8 || |RetainedJobs(kept, job.user)| >= 200 then ResourceLimit
                                            else Conflict)
                  && (r.Ok? ==> r.value.jobs == kept.jobs[db.nextJob := job] && r.value.nextJob == db.nextJob + 1
                                && (job.command == Book ==> r.value.reservations == kept.reservations[Slot(job.profile, job.visit) := Some(db.nextJob)])
                                && (job.command != Book ==> r.value.reservations == kept.reservations)))
  {
    var row := Admit(db, actor, p, now);
    if row.Ok? {
      UniqueExactly(Prune(db, row.value.user, now), row.value);
    }
  }

  // ---------------------------------------------------------------- what never coexists, in any run

  /** No two rows share a key; no two pending rows run one request in one mode, or pair one source. */
  ghost predicate NoClashes(db: DB) {
    forall a, b :: a in db.jobs && b in db.jobs && a != b ==> Apart(db.jobs[a], db.jobs[b])
  }

  predicate Apart(a: Job, b: Job) {
    && (a.dedup != "" ==> a.dedup != b.dedup)
    && (Pending(a.status) && Pending(b.status) ==> !SameRequest(a, b) && !SamePairing(a, b))
  }

  lemma ApartStays(a: Job, b: Job, a': Job, b': Job)
    requires Apart(a, b) && SameIdentity(a, a') && SameIdentity(b, b')
    requires (Pending(a'.status) ==> Pending(a.status)) && (Pending(b'.status) ==> Pending(b.status))
    ensures Apart(a', b')
  {
  }

  lemma EditStaysPending(a: Job, b: Job, active: bool)
    requires LegalEdit(a, b, active)
    ensures SameIdentity(a, b) && (Pending(b.status) ==> Pending(a.status))
  {
  }

  /** A statement that inserts no row keeps the rows apart. */
  lemma EvolvingStaysApart(db: DB, db': DB, today: Day)
    requires NoClashes(db) && Evolves(db, db', today) && forall id :: id in db'.jobs ==> id in db.jobs
    ensures NoClashes(db')
  {
    forall a, b | a in db'.jobs && b in db'.jobs && a != b ensures Apart(db'.jobs[a], db'.jobs[b]) {
      EditStaysPending(db.jobs[a], db'.jobs[a], IsActive(db, db.jobs[a].user));
      EditStaysPending(db.jobs[b], db'.jobs[b], IsActive(db, db.jobs[b].user));
      ApartStays(db.jobs[a], db.jobs[b], db'.jobs[a], db'.jobs[b]);
    }
  }

  lemma NoClashIsApart(db: DB, job: Job, id: JobId)
    requires id in db.jobs && !Clash(db, job)
    ensures Apart(db.jobs[id], job) && Apart(job, db.jobs[id])
  {
  }

  lemma EnqueueStaysApart(db: DB, actor: UserId, p: Params, now: Instant)
    requires Wf(db) && NoClashes(db) && Enqueue(db, actor, p, now).Ok?
    ensures NoClashes(Enqueue(db, actor, p, now).value)
  {
    EnqueuedExactly(db, actor, p, now);
    var job := Admit(db, actor, p, now).value;
    var kept := Prune(db, job.user, now);
    InsertedStaysApart(db, kept, job, Enqueue(db, actor, p, now).value);
  }

  lemma InsertedStaysApart(db: DB, kept: DB, job: Job, db': DB)
    requires NoClashes(db) && (forall id :: id in kept.jobs ==> id in db.jobs && kept.jobs[id] == db.jobs[id]) && !Clash(kept, job)
    requires db'.jobs == kept.jobs[db.nextJob := job]
    ensures NoClashes(db')
  {
    forall a, b | a in db'.jobs && b in db'.jobs && a != b ensures Apart(db'.jobs[a], db'.jobs[b]) {
      if a == db.nextJob {
        NoClashIsApart(kept, job, b);
      } else if b == db.nextJob {
        NoClashIsApart(kept, job, a);
      }
    }
  }

  lemma JobOpInsertsNothing(db: DB, op: Op, now: Instant, id: JobId)
    requires JobOp(op) && !op.EnqueueOp? && id in Apply(db, op, now).jobs
    ensures id in db.jobs
  {
  }

  lemma SweepInsertsNothing(db: DB, op: Op, now: Instant, id: JobId)
    requires SweepOp(op) && id in Apply(db, op, now).jobs
    ensures id in db.jobs
  {
  }

  lemma AccountInsertsNothing(db: DB, u: UserId, active: bool, now: Instant, id: JobId)
    requires id in Settle(db, SetAccount(db, u, active, now)).jobs
    ensures id in db.jobs
  {
  }

  lemma DeletionInsertsNothing(db: DB, op: Op, now: Instant, id: JobId)
    requires (op.DeleteMemberOp? || op.DeleteProfileOp?) && id in Apply(db, op, now).jobs
    ensures id in db.jobs
  {
  }

  lemma OtherInsertsNothing(db: DB, op: Op, now: Instant, id: JobId)
    requires !JobOp(op) && !SweepOp(op) && id in Apply(db, op, now).jobs
    ensures id in db.jobs
  {
    if op.SetAccountOp? {
      AccountInsertsNothing(db, op.user, op.active, now, id);
    } else if op.DeleteMemberOp? || op.DeleteProfileOp? {
      DeletionInsertsNothing(db, op, now, id);
    }
  }

  lemma OnlyEnqueueInserts(db: DB, op: Op, now: Instant, id: JobId)
    requires !op.EnqueueOp? && id in Apply(db, op, now).jobs
    ensures id in db.jobs
  {
    if JobOp(op) {
      JobOpInsertsNothing(db, op, now, id);
    } else if SweepOp(op) {
      SweepInsertsNothing(db, op, now, id);
    } else {
      OtherInsertsNothing(db, op, now, id);
    }
  }

  lemma StatementKeepsApart(db: DB, op: Op, now: Instant)
    requires Wf(db) && NoClashes(db)
    ensures NoClashes(Apply(db, op, now))
  {
    if op.EnqueueOp? {
      if Enqueue(db, op.actor, op.params, now).Ok? {
        EnqueueStaysApart(db, op.actor, op.params, now);
      }
    } else {
      forall id | id in Apply(db, op, now).jobs ensures id in db.jobs {
        OnlyEnqueueInserts(db, op, now, id);
      }
      ApplyKeeps(db, op, now);
      EvolvingStaysApart(db, Apply(db, op, now), Today(now));
    }
  }

  /** In every reachable state: keys are unique, and a request or a pairing has one pending run at a time. */
  lemma {:induction false} ReachableRowsAreApart(run: seq<DB>, events: seq<Event>, users: map<UserId, User>, i: nat)
    requires IsRun(run, events) && run[0] == EmptyDB(users) && i < |run|
    ensures NoClashes(run[i])
    decreases i
  {
    if i > 0 {
      ReachableRowsAreApart(run, events, users, i - 1);
      RunKeepsWf(run, events, i - 1);
      var event := events[i - 1];
      StatementKeepsApart(run[i - 1], event.op, event.now);
    }
  }
}
