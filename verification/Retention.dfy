/** What history pruning keeps, and the per-account limits it serves. */
module Retention {
  import opened Types
  import opened JobTable
  import opened JobInvariants
  import opened JobRuns
  import opened Collections

  /** One account's rows that retention may remove. */
  function Eligible(db: DB, u: UserId, now: Instant): set<JobId> {
    set k | k in db.jobs && Prunable(db.jobs[k], now) && db.jobs[k].user == u
  }

  function Newer(db: DB, s: set<JobId>, id: JobId): set<JobId>
    requires id in db.jobs && s <= db.jobs.Keys
  {
    set k | k in s && NewerOrSame(db, k, id)
  }

  function Top(db: DB, s: set<JobId>, n: nat): set<JobId>
    requires s <= db.jobs.Keys
  {
    set id | id in s && |Newer(db, s, id)| <= n
  }

  lemma {:induction false} Oldest(db: DB, s: set<JobId>) returns (m: JobId)
    requires s != {} && s <= db.jobs.Keys
    ensures m in s && forall k :: k in s ==> NewerOrSame(db, k, m)
    decreases |s|
  {
    var one :| one in s;
    var rest := s - {one};
    m := one;
    if rest != {} {
      var last := Oldest(db, rest);
      m := if NewerOrSame(db, one, last) then last else one;
      forall k | k in s ensures NewerOrSame(db, k, m) {
        assert k == one || k in rest;
      }
    } else {
      assert s == {one};
    }
  }

  /** The rows ranked at most n are exactly n rows, or all of them if there are fewer. */
  lemma {:induction false} TopSize(db: DB, s: set<JobId>, n: nat)
    requires s <= db.jobs.Keys
    ensures |Top(db, s, n)| == if |s| <= n then |s| else n
    decreases |s|
  {
    if s == {} {
      assert Top(db, s, n) == {};
    } else if |s| <= n {
      forall id | id in s ensures |Newer(db, s, id)| <= n {
        SubsetSize(Newer(db, s, id), s);
      }
      assert Top(db, s, n) == s;
    } else {
      var m := Oldest(db, s);
      var rest := s - {m};
      assert Newer(db, s, m) == s;
      forall id | id in rest ensures Newer(db, s, id) == Newer(db, rest, id) {
      }
      assert Top(db, s, n) == Top(db, rest, n);
      assert |rest| == |s| - 1;
      TopSize(db, rest, n);
    }
  }

  lemma RankIsNewer(db: DB, u: UserId, now: Instant, id: JobId)
    requires id in db.jobs && (u == 0 || u == db.jobs[id].user)
    ensures RetentionRank(db, u, now, id) == |Newer(db, Eligible(db, db.jobs[id].user, now), id)|
  {
    assert Newer(db, Eligible(db, db.jobs[id].user, now), id)
        == (set k | k in db.jobs && Prunable(db.jobs[k], now) && (u == 0 || db.jobs[k].user == u)
                 && db.jobs[k].user == db.jobs[id].user && NewerOrSame(db, k, id));
  }

  /** `pass` is the account a pass is for, or 0 for all of them. */
  lemma KeptIsTop(db: DB, pass: UserId, u: UserId, now: Instant)
    requires pass == 0 || pass == u
    ensures Eligible(db, u, now) - Excess(db, pass, now) == Top(db, Eligible(db, u, now), MAX_HISTORY)
  {
    forall id | id in Eligible(db, u, now)
      ensures RetentionRank(db, pass, now, id) == |Newer(db, Eligible(db, u, now), id)|
    {
      RankIsNewer(db, pass, now, id);
    }
  }

  lemma TopIsNewest(db: DB, s: set<JobId>, n: nat, k: JobId, d: JobId)
    requires s <= db.jobs.Keys && k in Top(db, s, n) && d in s && d !in Top(db, s, n)
    ensures NewerOrSame(db, k, d)
  {
    if !NewerOrSame(db, k, d) {
      assert Newer(db, s, d) <= Newer(db, s, k);
      SubsetSize(Newer(db, s, d), Newer(db, s, k));
    }
  }

  lemma EligibleAfterPrune(db: DB, pass: UserId, u: UserId, now: Instant)
    requires pass == 0 || pass == u
    ensures Eligible(Prune(db, pass, now), u, now) == Top(db, Eligible(db, u, now), MAX_HISTORY)
  {
    KeptIsTop(db, pass, u, now);
    assert Eligible(Prune(db, pass, now), u, now) == Eligible(db, u, now) - Excess(db, pass, now);
  }

  /** Of the account's eligible rows exactly the newest 128 are left. */
  ghost predicate NewestKept(db: DB, db': DB, u: UserId, now: Instant) {
    var all := Eligible(db, u, now);
    var kept := Eligible(db', u, now);
    && kept <= all
    && |kept| == (if |all| <= MAX_HISTORY then |all| else MAX_HISTORY)
    && (forall k, d :: k in kept && d in all - kept ==>
          db.jobs[k].updated > db.jobs[d].updated || (db.jobs[k].updated == db.jobs[d].updated && k > d))
  }

  /** Pruning an account, or all accounts at once, keeps exactly its newest 128 eligible rows. */
  lemma PruneKeepsTheNewest(db: DB, pass: UserId, u: UserId, now: Instant)
    requires pass == 0 || pass == u
    ensures NewestKept(db, Prune(db, pass, now), u, now)
  {
    var all := Eligible(db, u, now);
    EligibleAfterPrune(db, pass, u, now);
    TopSize(db, all, MAX_HISTORY);
    forall k, d | k in Top(db, all, MAX_HISTORY) && d in all - Top(db, all, MAX_HISTORY) ensures NewerOrSame(db, k, d) {
      TopIsNewest(db, all, MAX_HISTORY, k, d);
    }
  }

  /** Pending rows, unknown outcomes and rows that still deduplicate are never removed, nor is anyone else's row. */
  lemma PruneSpares(db: DB, u: UserId, now: Instant, id: JobId)
    requires id in db.jobs
    requires
      || Pending(db.jobs[id].status)
      || db.jobs[id].status == OutcomeUnknown
      || (db.jobs[id].dedup != "" && !PairingKey(db.jobs[id].dedup) && (db.jobs[id].expires.None? || now < db.jobs[id].expires.value))
      || (u != 0 && db.jobs[id].user != u)
    ensures id in Prune(db, u, now).jobs && Prune(db, u, now).jobs[id] == db.jobs[id]
  {
  }

  /** What a pass leaves is within its rank, since removing rows raises nobody's rank. */
  lemma NothingLeftOver(db: DB, u: UserId, now: Instant)
    ensures Excess(Prune(db, u, now), u, now) == {}
  {
    var db' := Prune(db, u, now);
    forall id | id in db'.jobs && Prunable(db'.jobs[id], now) && (u == 0 || db'.jobs[id].user == u)
      ensures RetentionRank(db', u, now, id) <= MAX_HISTORY
    {
      SubsetSize(
        set k | k in db'.jobs && Prunable(db'.jobs[k], now) && (u == 0 || db'.jobs[k].user == u)
                && db'.jobs[k].user == db'.jobs[id].user && NewerOrSame(db', k, id),
        set k | k in db.jobs && Prunable(db.jobs[k], now) && (u == 0 || db.jobs[k].user == u)
                && db.jobs[k].user == db.jobs[id].user && NewerOrSame(db, k, id));
    }
  }

  /** Both the pass for one account and, for user 0, the maintenance pass over all of them. */
  lemma PruneIsIdempotent(db: DB, u: UserId, now: Instant)
    ensures Prune(Prune(db, u, now), u, now) == Prune(db, u, now)
  {
    NothingLeftOver(db, u, now);
    NothingRemoved(Prune(db, u, now));
  }

  lemma NothingRemoved(db: DB)
    ensures WithoutRows(db, {}) == db
  {
    assert db.jobs - {} == db.jobs && db.decisions - {} == db.decisions;
    assert Detach(db.reservations, db.jobs, {}) == db.reservations;
  }

  // ---------------------------------------------------------------- global prune = every account's prune

  function PruneEach(db: DB, users: seq<UserId>, now: Instant): DB
    decreases |users|
  {
    if users == [] then db else PruneEach(Prune(db, users[0], now), users[1..], now)
  }

  function ExcessOf(db: DB, users: seq<UserId>, now: Instant): set<JobId> {
    set id | id in db.jobs && db.jobs[id].user in users && id in Excess(db, db.jobs[id].user, now)
  }

  lemma RemoveTwice(db: DB, a: set<JobId>, b: set<JobId>)
    ensures WithoutRows(WithoutRows(db, a), b) == WithoutRows(db, a + b)
  {
    var once := WithoutRows(db, a);
    assert once.jobs - b == db.jobs - (a + b);
    assert once.decisions - b == db.decisions - (a + b);
    assert Detach(once.reservations, once.jobs, b) == Detach(db.reservations, db.jobs, a + b);
  }

  lemma OthersKeepTheirRank(db: DB, u: UserId, v: UserId, now: Instant)
    requires u != v && u != 0 && v != 0
    ensures Excess(Prune(db, u, now), v, now) == Excess(db, v, now)
  {
    var db' := Prune(db, u, now);
    assert Eligible(db', v, now) == Eligible(db, v, now);
    forall id | id in Eligible(db, v, now)
      ensures RetentionRank(db', v, now, id) == RetentionRank(db, v, now, id)
    {
      RankIsNewer(db', v, now, id);
      RankIsNewer(db, v, now, id);
      assert Newer(db', Eligible(db, v, now), id) == Newer(db, Eligible(db, v, now), id);
    }
  }

  lemma {:induction false} PruneEachRemoves(db: DB, users: seq<UserId>, now: Instant)
    requires 0 !in users && forall i, j :: 0 <= i < j < |users| ==> users[i] != users[j]
    ensures PruneEach(db, users, now) == WithoutRows(db, ExcessOf(db, users, now))
    decreases |users|
  {
    if users == [] {
      assert ExcessOf(db, users, now) == {};
      NothingRemoved(db);
    } else {
      var u, rest := users[0], users[1..];
      var db' := Prune(db, u, now);
      PruneEachRemoves(db', rest, now);
      forall id | id in db'.jobs && db'.jobs[id].user in rest
        ensures id in Excess(db', db'.jobs[id].user, now) <==> id in Excess(db, db.jobs[id].user, now)
      {
        OthersKeepTheirRank(db, u, db'.jobs[id].user, now);
      }
      RemoveTwice(db, Excess(db, u, now), ExcessOf(db', rest, now));
      assert users == [u] + rest;
      assert Excess(db, u, now) + ExcessOf(db', rest, now) == ExcessOf(db, users, now);
    }
  }

  /** The maintenance pass over everyone equals the enqueue-time pass made for each account in turn, in any order. */
  lemma GlobalPruneIsEachAccountsPrune(db: DB, users: seq<UserId>, now: Instant)
    requires 0 !in users && forall i, j :: 0 <= i < j < |users| ==> users[i] != users[j]
    requires forall id :: id in db.jobs ==> db.jobs[id].user in users
    ensures Prune(db, 0, now) == PruneEach(db, users, now)
  {
    PruneEachRemoves(db, users, now);
    forall id | id in db.jobs
      ensures id in Excess(db, 0, now) <==> id in Excess(db, db.jobs[id].user, now)
    {
      RankIsNewer(db, 0, now, id);
      RankIsNewer(db, db.jobs[id].user, now, id);
    }
    assert Excess(db, 0, now) == ExcessOf(db, users, now);
  }

  // ---------------------------------------------------------------- quotas

  /** A statement that inserts no row keeps both limits. */
  lemma ShrinkKeepsQuotas(db: DB, db': DB, today: Day)
    requires Quotas(db) && Evolves(db, db', today) && db'.jobs.Keys <= db.jobs.Keys
    ensures Quotas(db')
  {
    forall u: UserId ensures |PendingJobs(db', u)| <= MAX_PENDING && |RetainedJobs(db', u)| <= MAX_RETAINED {
      forall id | id in db'.jobs
        ensures id in db.jobs && db.jobs[id].user == db'.jobs[id].user
        ensures Pending(db'.jobs[id].status) ==> Pending(db.jobs[id].status)
      {
        assert id in db'.jobs.Keys;
      }
      SubsetSize(PendingJobs(db', u), PendingJobs(db, u));
      SubsetSize(RetainedJobs(db', u), RetainedJobs(db, u));
    }
  }

  lemma InsertAddsOne(db: DB, job: Job, u: UserId)
    requires Keys(db)
    ensures |PendingJobs(WithNewRow(db, job), u)| <= |PendingJobs(db, u)| + (if u == job.user then 1 else 0)
    ensures |RetainedJobs(WithNewRow(db, job), u)| <= |RetainedJobs(db, u)| + (if u == job.user then 1 else 0)
  {
    var db' := WithNewRow(db, job);
    var more := if u == job.user then {db.nextJob} else {};
    SubsetSize(PendingJobs(db', u), PendingJobs(db, u) + more);
    SubsetSize(RetainedJobs(db', u), RetainedJobs(db, u) + more);
  }

  lemma InsertKeepsQuotas(db: DB, job: Job)
    requires Quotas(db) && Keys(db)
    requires |PendingJobs(db, job.user)| < MAX_PENDING && |RetainedJobs(db, job.user)| < MAX_RETAINED
    ensures Quotas(WithNewRow(db, job))
  {
    forall u: UserId ensures |PendingJobs(WithNewRow(db, job), u)| <= MAX_PENDING && |RetainedJobs(WithNewRow(db, job), u)| <= MAX_RETAINED {
      InsertAddsOne(db, job, u);
    }
  }

  lemma JobOpInsertsNothing(db: DB, op: Op, now: Instant)
    requires JobOp(op) && !op.EnqueueOp?
    ensures Apply(db, op, now).jobs.Keys <= db.jobs.Keys
  {
  }

  lemma SweepInsertsNothing(db: DB, op: Op, now: Instant)
    requires SweepOp(op)
    ensures Apply(db, op, now).jobs.Keys <= db.jobs.Keys
  {
  }

  lemma OtherOpInsertsNothing(db: DB, op: Op, now: Instant)
    requires !JobOp(op) && !SweepOp(op)
    ensures Apply(db, op, now).jobs.Keys <= db.jobs.Keys
  {
    match op {
      case SetAccountOp(u, active) =>
      case DeleteMemberOp(u, name) =>
      case _ =>
    }
  }

  lemma OnlyEnqueueInserts(db: DB, op: Op, now: Instant)
    requires !op.EnqueueOp?
    ensures Apply(db, op, now).jobs.Keys <= db.jobs.Keys
  {
    if JobOp(op) {
      JobOpInsertsNothing(db, op, now);
    } else if SweepOp(op) {
      SweepInsertsNothing(db, op, now);
    } else {
      OtherOpInsertsNothing(db, op, now);
    }
  }

  lemma ApplyKeepsQuotas(db: DB, op: Op, now: Instant)
    requires Wf(db) && Quotas(db)
    ensures Quotas(Apply(db, op, now))
  {
    ApplyKeeps(db, op, now);
    if op.EnqueueOp? {
      if Enqueue(db, op.actor, op.params, now).Ok? {
        var job := Admit(db, op.actor, op.params, now).value;
        PruneKeeps(db, job.user, now, Today(now));
        ShrinkKeepsQuotas(db, Prune(db, job.user, now), Today(now));
        InsertKeepsQuotas(Prune(db, job.user, now), job);
      }
    } else {
      OnlyEnqueueInserts(db, op, now);
      ShrinkKeepsQuotas(db, Apply(db, op, now), Today(now));
    }
  }

  /** In every reachable state each account has at most 8 pending and 200 retained jobs. */
  lemma {:induction false} ReachableQuotas(run: seq<DB>, events: seq<Event>, users: map<UserId, User>, i: nat)
    requires IsRun(run, events) && run[0] == EmptyDB(users) && i < |run|
    ensures forall u: UserId :: |PendingJobs(run[i], u)| <= 8 && |RetainedJobs(run[i], u)| <= 200
  {
    if i == 0 {
      forall u: UserId ensures |PendingJobs(run[0], u)| <= 8 && |RetainedJobs(run[0], u)| <= 200 {
        assert PendingJobs(run[0], u) == {} && RetainedJobs(run[0], u) == {};
      }
    } else {
      ReachableQuotas(run, events, users, i - 1);
      StepKeepsQuotas(run, events, i - 1);
    }
  }

  lemma StepKeepsQuotas(run: seq<DB>, events: seq<Event>, i: nat)
    requires IsRun(run, events) && Wf(run[0]) && i < |events| && Quotas(run[i])
    ensures Quotas(run[i + 1])
  {
    RunKeepsWf(run, events, i);
    var e := events[i];
    ApplyKeepsQuotas(run[i], e.op, e.now);
  }
}
