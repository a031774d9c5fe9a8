/** What enabling, disabling and deleting accounts and profiles does to everything else. */
module AccountEffects {
  import opened Types
  import opened JobTable
  import opened JobInvariants

  predicate Owns(db: DB, u: UserId, p: ProfileId) {
    p in db.profiles && db.profiles[p].user == u
  }

  /** Changed exactly for a known account, and an administrator is never disabled; only the flag and, on a disable, the account's pending jobs change. */
  lemma AccountIsSet(db: DB, u: UserId, active: bool, now: Instant)
    ensures var r := SetAccount(db, u, active, now);
            && (r.Ok? <==> u in db.users && (db.users[u].admin ==> active))
            && (r.Err? ==> r.error == if u in db.users then Conflict else NotFound)
            && (r.Ok? ==>
                  && r.value.users == db.users[u := db.users[u].(active := active)]
                  && r.value == db.(users := r.value.users, jobs := r.value.jobs, reservations := r.value.reservations)
                  && r.value.jobs.Keys == db.jobs.Keys
                  && (active ==> r.value.jobs == db.jobs && r.value.reservations == db.reservations))
  {
    if SetAccount(db, u, active, now).Ok? && !active {
      assert Revoked(db, u, now).Keys == db.jobs.Keys;
    }
  }

  /** On a disable every pending job of the account is flagged, a queued one ends, and no other row changes. */
  lemma DisableReachesPending(db: DB, u: UserId, now: Instant, id: JobId)
    requires SetAccount(db, u, false, now).Ok? && id in db.jobs
    ensures var job, db' := db.jobs[id], SetAccount(db, u, false, now).value;
            && id in db'.jobs
            && (!(job.user == u && job.status in {Queued, Running, AwaitingApproval}) ==> db'.jobs[id] == job)
            && (job.user == u && job.status in {Running, AwaitingApproval} ==> db'.jobs[id] == job.(cancel := true, updated := now))
            && (job.user == u && job.status == Queued ==>
                  db'.jobs[id] == job.(cancel := true, updated := now, status := Cancelled, message := AccountWasDisabled, finished := Some(now)))
  {
  }

  /** Nothing of the account is left. */
  ghost predicate Forgotten(db: DB, db': DB, u: UserId) {
    && u !in db'.users && u !in db'.preferences
    && (forall id :: id in db'.jobs ==> db'.jobs[id].user != u)
    && (forall p :: p in db'.profiles ==> db'.profiles[p].user != u)
    && (forall b :: b in db'.bookings ==> db'.bookings[b].user != u)
    && (forall s :: s in db'.sources ==> db'.sources[s] != u)
    && (forall s :: s in db'.reservations ==> !Owns(db, u, s.profile))
    && (forall id :: id in db'.decisions ==> !(id in db.jobs && db.jobs[id].user == u))
  }

  /** The others' accounts, profiles, requests, sources and preferences are as they were. */
  ghost predicate OthersKeepTheirs(db: DB, db': DB, u: UserId) {
    && (forall v :: v != u && v in db.users ==> v in db'.users && db'.users[v] == db.users[v])
    && (forall p :: p in db.profiles && db.profiles[p].user != u ==> p in db'.profiles && db'.profiles[p] == db.profiles[p])
    && (forall b :: b in db.bookings && db.bookings[b].user != u ==> b in db'.bookings && db'.bookings[b] == db.bookings[b])
    && (forall s :: s in db.sources && db.sources[s] != u ==> s in db'.sources && db'.sources[s] == db.sources[s])
    && (forall v :: v != u && v in db.preferences ==> v in db'.preferences && db'.preferences[v] == db.preferences[v])
  }

  /** And so are their jobs, decisions and guards. */
  ghost predicate OthersJobsStay(db: DB, db': DB, u: UserId) {
    && (forall id :: id in db.jobs && db.jobs[id].user != u ==> id in db'.jobs && db'.jobs[id] == db.jobs[id])
    && (forall id :: id in db.decisions && !MadeBy(db, u, id) ==> id in db'.decisions && db'.decisions[id] == db.decisions[id])
    && (forall s :: s in db.reservations && !Owns(db, u, s.profile) && !(db.reservations[s].Some? && MadeBy(db, u, db.reservations[s].value)) ==>
          s in db'.reservations && db'.reservations[s] == db.reservations[s])
    && db'.nextJob == db.nextJob && db'.nextProfile == db.nextProfile
  }

  predicate MadeBy(db: DB, u: UserId, id: JobId) {
    id in db.jobs && db.jobs[id].user == u
  }

  lemma MemberIsForgotten(db: DB, u: UserId, confirmed: string)
    requires DeleteMember(db, u, confirmed).Ok?
    ensures Forgotten(db, DeleteMember(db, u, confirmed).value, u)
  {
  }

  lemma OthersThings(db: DB, u: UserId, confirmed: string)
    requires DeleteMember(db, u, confirmed).Ok?
    ensures OthersKeepTheirs(db, DeleteMember(db, u, confirmed).value, u)
  {
  }

  lemma OthersJobs(db: DB, u: UserId, confirmed: string)
    requires DeleteMember(db, u, confirmed).Ok?
    ensures OthersJobsStay(db, DeleteMember(db, u, confirmed).value, u)
  {
  }

  /** A member can be deleted exactly when disabled, confirmed by name, with nothing pending and no foreign job on their profiles. */
  lemma DeletedExactly(db: DB, u: UserId, confirmed: string)
    ensures var r := DeleteMember(db, u, confirmed);
            && (r.Ok? <==>
                  && u in db.users && !db.users[u].admin && !db.users[u].active && db.users[u].username == confirmed
                  && (forall id :: id in db.jobs && db.jobs[id].user == u ==> db.jobs[id].status !in {Queued, Running, AwaitingApproval})
                  && (forall id :: id in db.jobs && db.jobs[id].user != u ==> !Owns(db, u, db.jobs[id].profile)))
            && (r.Err? ==> r.error == if u in db.users then Conflict else NotFound)
  {
    var mine := RetainedJobs(db, u);
    var without := WithoutRows(db, mine);
    assert forall id :: id in without.jobs <==> id in db.jobs && db.jobs[id].user != u;
    assert forall p :: p in ProfilesOf(db, u) <==> Owns(db, u, p);
  }

  /** Deleting a member forgets all of theirs and touches nothing of anyone else's. */
  lemma MemberIsDeleted(db: DB, u: UserId, confirmed: string)
    requires DeleteMember(db, u, confirmed).Ok?
    ensures var db' := DeleteMember(db, u, confirmed).value; Forgotten(db, db', u) && OthersKeepTheirs(db, db', u) && OthersJobsStay(db, db', u)
  {
    MemberIsForgotten(db, u, confirmed);
    OthersThings(db, u, confirmed);
    OthersJobs(db, u, confirmed);
  }

  /** A new profile gets an id that was never used, and nothing else changes. */
  lemma ProfileIsAdded(db: DB, profile: Profile)
    requires Keys(db)
    ensures var db' := AddProfile(db, profile); var p := db.nextProfile;
            && p !in db.profiles && db'.profiles == db.profiles[p := profile] && p < db'.nextProfile
            && db' == db.(profiles := db'.profiles, nextProfile := db'.nextProfile)
  {
  }

  /** A profile is deleted exactly by its owner and while no job or request names it; it goes with its guards, and nothing else does. */
  lemma ProfileIsDeleted(db: DB, u: UserId, p: ProfileId)
    ensures var r := DeleteProfile(db, u, p);
            && (r.Ok? <==>
                  && Owns(db, u, p) && (forall id :: id in db.jobs ==> db.jobs[id].profile != p)
                  && (forall b :: b in db.bookings ==> db.bookings[b].profile != p))
            && (r.Err? ==> r.error == if Owns(db, u, p) then Conflict else NotFound)
            && (r.Ok? ==>
                  && r.value == db.(profiles := r.value.profiles, reservations := r.value.reservations)
                  && (forall q :: q in r.value.profiles <==> q in db.profiles && q != p)
                  && (forall q :: q in r.value.profiles ==> r.value.profiles[q] == db.profiles[q])
                  && (forall s :: s in r.value.reservations <==> s in db.reservations && s.profile != p)
                  && (forall s :: s in r.value.reservations ==> r.value.reservations[s] == db.reservations[s]))
  {
  }
}
