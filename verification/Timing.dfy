/** Release windows: what is chosen at enqueue, checked at start, sent to the worker, and bounded by the deadline. */
module Timing {
  import opened Types
  import opened JobTable
  import opened JobRuns
  import System

  const SECOND: int := 1_000_000_000
  const MINUTE: int := 60 * SECOND
  const HOUR: int := 60 * MINUTE

  /** A booking request with its release instant worked out from date, clock and zone. */
  datatype Request = Request(
    visit: Day,
    release: Instant,
    prepMinutes: int,
    authMinutes: int,
    pollSeconds: int,
    pollMin: real,
    pollMax: real,
    mode: RunMode)

  const MAX_PREP_MINUTES: int := 180
  const MAX_POLL_SECONDS: int := 900

  predicate ValidTiming(r: Request) {
    && 0 <= r.authMinutes <= r.prepMinutes <= MAX_PREP_MINUTES
    && 0 < r.pollSeconds <= MAX_POLL_SECONDS
    && 0.05 <= r.pollMin <= r.pollMax <= 60.0
  }

  datatype Window = Window(release: Instant, prep: Instant, auth: Instant, pollEnds: Instant)

  function WindowFor(r: Request): Result<Window> {
    if !ValidTiming(r) then Err(Invalid)
    else Ok(Window(r.release, r.release - r.prepMinutes * MINUTE, r.release - r.authMinutes * MINUTE, r.release + r.pollSeconds * SECOND))
  }

  // ---------------------------------------------------------------- enqueue

  function Blank(command: Command, mode: RunMode, due: Instant): Params {
    Params(None, 0, 0, false, command, mode, false, Some(due), None, "")
  }

  function BookingParams(r: Request, booking: BookingId, command: Command, mode: Option<RunMode>, now: Instant): Result<Params> {
    var chosen := match command
      case DryRun => ModeDryRun
      case AuthCheck => Manual
      case Book => if mode.None? then r.mode else mode.value;
    if command == Book && chosen == ModeDryRun then Err(Invalid)
    else
      var params := Blank(command, chosen, now).(booking := Some(booking));
      if command != Book then Ok(params)
      else
        var w := WindowFor(r);
        if w.Err? then Err(w.error)
        else if !(now < w.value.pollEnds) then Err(Invalid)
        else Ok(params.(due := Some(if now < w.value.prep then w.value.prep else now), expires := Some(w.value.pollEnds)))
  }

  /** The calendar day at an instant, `zone` ahead of UTC. */
  function LocalDay(now: Instant, zone: int): Day {
    (now + zone) / DAY
  }

  function ImmediateDate(r: Request, now: Instant, zone: int): Result<Window> {
    var w := WindowFor(r);
    if w.Err? then w
    else if now < w.value.release then Err(Invalid)
    else if LocalDay(now, zone) > r.visit then Err(Invalid)
    else w
  }

  function ImmediateParams(r: Request, booking: BookingId, now: Instant, zone: int): Result<Params> {
    var date := ImmediateDate(r, now, zone);
    if date.Err? then Err(date.error)
    else Ok(Blank(Book, Manual, now).(booking := Some(booking), immediate := true, expires := Some(now + MAX_IMMEDIATE_LIFETIME)))
  }

  function LakeBookingParams(r: Request, booking: BookingId, now: Instant, zone: int): Result<Params> {
    var w := WindowFor(r);
    if w.Err? then Err(w.error)
    else if now < w.value.release then BookingParams(r, booking, Book, Some(r.mode), now)
    else ImmediateParams(r, booking, now, zone)
  }

  /** What the engine sends always passes the store's timing checks: a scheduled booking at any time, an immediate one within its lifetime. */
  lemma EnqueuedTimingIsAdmitted(r: Request, booking: BookingId, now: Instant, zone: int, at: Instant)
    ensures var p := LakeBookingParams(r, booking, now, zone);
            p.Ok? ==> NormalMode(p.value).Some? &&
                      (TimingAdmitted(p.value, NormalMode(p.value).value, at) <==> (p.value.immediate ==> now <= at < now + MAX_IMMEDIATE_LIFETIME))
    ensures forall command, mode :: var p := BookingParams(r, booking, command, mode, now);
            p.Ok? ==> NormalMode(p.value).Some? && !p.value.immediate && TimingAdmitted(p.value, NormalMode(p.value).value, at)
  {
  }

  /** What is chosen, and when nothing is: before the release a job for the window, from the release on an immediate one for 15 minutes. */
  lemma EnqueueChoice(r: Request, booking: BookingId, now: Instant, zone: int)
    ensures var p := LakeBookingParams(r, booking, now, zone); var prep, ends := r.release - r.prepMinutes * MINUTE, r.release + r.pollSeconds * SECOND;
            && (p.Ok? <==>
                  && 0 <= r.authMinutes <= r.prepMinutes <= 180 && 1 <= r.pollSeconds <= 900 && 0.05 <= r.pollMin <= r.pollMax <= 60.0
                  && (if now < r.release then r.mode != ModeDryRun else LocalDay(now, zone) <= r.visit))
            && (p.Ok? ==> p.value.command == Book && p.value.booking == Some(booking) && (p.value.immediate <==> r.release <= now))
            && (p.Ok? && p.value.immediate ==> p.value.mode == Manual && p.value.due == Some(now) && p.value.expires == Some(now + 15 * MINUTE))
            && (p.Ok? && !p.value.immediate ==>
                  && p.value.mode == r.mode && p.value.expires == Some(ends) && now < ends
                  && p.value.due.Some? && now <= p.value.due.value && prep <= p.value.due.value && p.value.due.value in {now, prep})
  {
  }

  /** A job of any command for a request: checks run at once in their own mode, a booking in the window and not as a dry run. */
  lemma CommandChoice(r: Request, booking: BookingId, command: Command, mode: Option<RunMode>, now: Instant)
    ensures var p := BookingParams(r, booking, command, mode, now); var wanted := if mode.Some? then mode.value else r.mode;
            && (p.Ok? <==> command == Book ==> wanted != ModeDryRun && ValidTiming(r) && now < r.release + r.pollSeconds * SECOND)
            && (p.Ok? ==> p.value.command == command && p.value.booking == Some(booking) && !p.value.immediate && p.value.due.Some?)
            && (p.Ok? && command == AuthCheck ==> p.value.mode == Manual && p.value.due == Some(now) && p.value.expires == None)
            && (p.Ok? && command == DryRun ==> p.value.mode == ModeDryRun && p.value.due == Some(now) && p.value.expires == None)
            && (p.Ok? && command == Book ==>
                  && p.value.mode == wanted && p.value.expires == Some(r.release + r.pollSeconds * SECOND)
                  && p.value.due.value >= now && p.value.due.value >= r.release - r.prepMinutes * MINUTE
                  && p.value.due.value in {now, r.release - r.prepMinutes * MINUTE})
  {
  }

  // ---------------------------------------------------------------- start

  /** The row the store creates from the parameters. */
  predicate CreatedFrom(job: Job, p: Params) {
    && Some(job.mode) == NormalMode(p) && job.command == p.command && job.immediate == p.immediate
    && p.due == Some(job.due) && job.expires == p.expires
  }

  datatype Sent = Sent(release: Option<Instant>, auth: Option<Instant>, poll: Option<int>)

  /** Whole seconds, rounded up. */
  function CeilSeconds(d: int): int {
    -((-d) / SECOND)
  }

  function StartTiming(job: Job, r: Request, now: Instant, zone: int): Result<Sent> {
    if !ValidImmediateRun(job.immediate, job.command, job.mode, job.due, job.expires) then Err(Invalid)
    else if job.command != Book then Ok(Sent(None, None, None))
    else
      var w := if job.immediate then ImmediateDate(r, now, zone) else WindowFor(r);
      if w.Err? then Err(w.error)
      else if job.immediate && now < job.due then Err(Invalid)
      else if !job.immediate && (now < w.value.prep || !(now < w.value.pollEnds)) then Err(Invalid)
      else
        var sent :=
          if job.immediate then Sent(None, job.expires, None)
          else Sent(if now < w.value.release then Some(w.value.release) else None, Some(w.value.auth), None);
        if job.expires.None? then Ok(sent)
        else
          var remaining := CeilSeconds(job.expires.value - now);
          if remaining < 1 then Err(Invalid)
          else Ok(if remaining < r.pollSeconds then sent.(poll := Some(remaining)) else sent)
  }

  function PollBudget(sent: Sent, r: Request): int {
    if sent.poll.Some? then sent.poll.value else r.pollSeconds
  }

  /** The worker's own checks of the timing it is sent. */
  predicate WorkerAccepts(poll: int, pollMin: real, pollMax: real, sent: Sent) {
    && 1 <= poll <= 900
    && 0.05 <= pollMin <= 60.0 && 0.05 <= pollMax <= 60.0 && pollMin <= pollMax
    && !(sent.release.Some? && sent.auth.Some? && sent.auth.value > sent.release.value)
  }

  /** What the worker turns away: a poll budget or interval out of bounds, or a sign-in deadline past the release. */
  lemma WorkerRefuses(poll: int, pollMin: real, pollMax: real, sent: Sent)
    ensures !WorkerAccepts(poll, pollMin, pollMax, sent) <==>
              || poll < 1 || poll > 900 || pollMin < 0.05 || pollMax > 60.0 || pollMax < pollMin
              || (sent.release.Some? && sent.auth.Some? && sent.release.value < sent.auth.value)
  {
  }

  lemma CeilIsLeast(d: int)
    requires d > 0
    ensures CeilSeconds(d) >= 1 && (CeilSeconds(d) - 1) * SECOND < d <= CeilSeconds(d) * SECOND
  {
  }

  /**
   A scheduled booking that is startable (due <= now < expiry) always starts; the worker accepts its timing, and its poll
   budget is what was configured or what remains, rounded up, whichever is less.
   */
  lemma StartableAlwaysStarts(r: Request, booking: BookingId, mode: Option<RunMode>, enqueued: Instant, job: Job, now: Instant, zone: int)
    requires var p := BookingParams(r, booking, Book, mode, enqueued); p.Ok? && CreatedFrom(job, p.value)
    requires job.due <= now && job.expires.Some? && now < job.expires.value
    ensures var sent := StartTiming(job, r, now, zone);
            && sent.Ok?
            && WorkerAccepts(PollBudget(sent.value, r), r.pollMin, r.pollMax, sent.value)
            && sent.value.auth == Some(r.release - r.authMinutes * MINUTE)
            && (sent.value.release.Some? <==> now < r.release) && (sent.value.release.Some? ==> sent.value.release.value == r.release)
            && 1 <= PollBudget(sent.value, r) == (if CeilSeconds(job.expires.value - now) < r.pollSeconds then CeilSeconds(job.expires.value - now) else r.pollSeconds)
  {
    CeilIsLeast(job.expires.value - now);
  }

  /** A startable immediate booking starts exactly while its visit day has not passed at the lake; then the same holds of it. */
  lemma ImmediateStartsExactly(r: Request, booking: BookingId, enqueued: Instant, zoneThen: int, job: Job, now: Instant, zone: int)
    requires var p := ImmediateParams(r, booking, enqueued, zoneThen); p.Ok? && CreatedFrom(job, p.value)
    requires job.due <= now && job.expires.Some? && now < job.expires.value
    ensures var sent := StartTiming(job, r, now, zone);
            && (sent.Ok? <==> LocalDay(now, zone) <= r.visit)
            && (sent.Ok? ==> WorkerAccepts(PollBudget(sent.value, r), r.pollMin, r.pollMax, sent.value)
                             && sent.value.release.None? && sent.value.auth == job.expires
                             && PollBudget(sent.value, r) == (if CeilSeconds(job.expires.value - now) < r.pollSeconds then CeilSeconds(job.expires.value - now) else r.pollSeconds))
  {
    CeilIsLeast(job.expires.value - now);
  }

  lemma LocalMidnight(now: Instant, zone: int, day: Day)
    ensures LocalDay(now, zone) > day <==> now >= (day + 1) * DAY - zone
  {
  }

  /** Some startable moment of an immediate booking is refused exactly when local midnight of the visit day falls within its lifetime. */
  lemma RefusedAfterMidnightExactly(r: Request, booking: BookingId, enqueued: Instant, zone: int, job: Job)
    requires var p := ImmediateParams(r, booking, enqueued, zone); p.Ok? && CreatedFrom(job, p.value)
    ensures (exists now :: job.due <= now < job.expires.value && StartTiming(job, r, now, zone).Err?)
            <==> (r.visit + 1) * DAY - zone < enqueued + MAX_IMMEDIATE_LIFETIME
  {
    var midnight := (r.visit + 1) * DAY - zone;
    LocalMidnight(enqueued, zone, r.visit);
    if midnight < enqueued + MAX_IMMEDIATE_LIFETIME {
      LocalMidnight(midnight, zone, r.visit);
      ImmediateStartsExactly(r, booking, enqueued, zone, job, midnight, zone);
    }
    forall now | job.due <= now < job.expires.value && StartTiming(job, r, now, zone).Err? ensures midnight <= now {
      ImmediateStartsExactly(r, booking, enqueued, zone, job, now, zone);
      LocalMidnight(now, zone, r.visit);
    }
  }

  /** Queued five minutes before midnight of the visit day and claimed a minute after it: still startable, and refused. */
  lemma RefusedStart()
    ensures var r := Request(0, 0, 10, 5, 60, 0.5, 1.0, Manual);
            var p := LakeBookingParams(r, 1, DAY - 5 * MINUTE, 0);
            && p.Ok? && p.value.immediate
            && forall job :: CreatedFrom(job, p.value) ==>
                 job.due <= DAY + MINUTE && job.expires.Some? && DAY + MINUTE < job.expires.value && StartTiming(job, r, DAY + MINUTE, 0).Err?
  {
    var r := Request(0, 0, 10, 5, 60, 0.5, 1.0, Manual);
    var p := LakeBookingParams(r, 1, DAY - 5 * MINUTE, 0);
    LocalMidnight(DAY - 5 * MINUTE, 0, 0);
    LocalMidnight(DAY + MINUTE, 0, 0);
    forall job | CreatedFrom(job, p.value)
      ensures job.due <= DAY + MINUTE && job.expires.Some? && DAY + MINUTE < job.expires.value && StartTiming(job, r, DAY + MINUTE, 0).Err?
    {
      ImmediateStartsExactly(r, 1, DAY - 5 * MINUTE, 0, job, DAY + MINUTE, 0);
    }
  }

  // ---------------------------------------------------------------- the execution deadline

  function ExecutionDeadline(job: Job, r: Request, started: Instant, interactive: int, checkout: int): Result<Instant> {
    if !ValidImmediateRun(job.immediate, job.command, job.mode, job.due, job.expires) then Err(Invalid)
    else if interactive <= 0 || checkout <= 0 then Err(Invalid)
    else if job.immediate then Ok(job.expires.value)
    else if job.command == Book then
      var w := WindowFor(r);
      if w.Err? then Err(w.error) else Ok(w.value.pollEnds + checkout)
    else Ok(started + interactive)
  }

  /** What makes an immediate booking malformed; it is checked at enqueue, at start and for the deadline. */
  lemma MalformedImmediate(job: Job)
    ensures !ValidImmediateRun(job.immediate, job.command, job.mode, job.due, job.expires) <==>
              job.immediate && (|| job.command != Book || job.mode != Manual
                                || job.expires.None? || job.expires.value <= job.due || job.expires.value > job.due + 15 * MINUTE)
  {
  }

  /** A deadline is refused exactly for a malformed immediate booking, an empty budget or a booking without a window. */
  lemma DeadlineRefusedExactly(job: Job, r: Request, started: Instant, interactive: int, checkout: int)
    ensures ExecutionDeadline(job, r, started, interactive, checkout).Err? <==>
              || interactive <= 0 || checkout <= 0
              || !ValidImmediateRun(job.immediate, job.command, job.mode, job.due, job.expires)
              || (job.command == Book && !job.immediate && !ValidTiming(r))
    ensures job.command != Book && ExecutionDeadline(job, r, started, interactive, checkout).Ok? ==>
              ExecutionDeadline(job, r, started, interactive, checkout).value == started + interactive
  {
  }

  /** A booking is never cut off before its own expiry, and always has a deadline. */
  lemma DeadlineIsNotBeforeExpiry(r: Request, booking: BookingId, enqueued: Instant, zone: int, job: Job, started: Instant, interactive: int, checkout: int)
    requires var p := LakeBookingParams(r, booking, enqueued, zone); p.Ok? && CreatedFrom(job, p.value)
    requires interactive > 0 && checkout > 0
    ensures var d := ExecutionDeadline(job, r, started, interactive, checkout);
            d.Ok? && job.expires.Some? && job.expires.value <= d.value == (if job.immediate then job.expires.value else job.expires.value + checkout)
  {
  }

  // ---------------------------------------------------------------- visit days

  /** Zones run from twelve hours behind UTC; a release is on or before the visit day there, which a clock change may lengthen by an hour. */
  predicate OnCalendar(r: Request, zone: int) {
    -12 * HOUR <= zone && r.release <= (r.visit + 1) * DAY + 13 * HOUR
  }

  lemma DayOf(at: Instant, day: Day)
    requires at < (day + 1) * DAY
    ensures Today(at) <= day
  {
  }

  /** Any booking the engine admits is for a day that has not passed everywhere, also if the row is written hours later. */
  lemma AdmittedVisitsAreAdmissible(r: Request, booking: BookingId, now: Instant, zone: int, at: Instant)
    requires OnCalendar(r, zone) && now <= at <= now + 10 * HOUR
    requires LakeBookingParams(r, booking, now, zone).Ok? || exists mode :: BookingParams(r, booking, Book, mode, now).Ok?
    ensures r.visit >= Today(at) - 1
  {
    if LakeBookingParams(r, booking, now, zone).Ok? && r.release <= now {
      assert LocalDay(now, zone) <= r.visit;
      assert now + zone < (r.visit + 1) * DAY;
    } else {
      assert now < r.release + MAX_POLL_SECONDS * SECOND;
    }
    DayOf(at, r.visit + 1);
  }

  /** The parameters are ones the engine sends for this request. */
  ghost predicate FromEngine(p: Params, r: Request, booking: BookingId, now: Instant, zone: int) {
    || LakeBookingParams(r, booking, now, zone) == Ok(p)
    || exists command, mode :: BookingParams(r, booking, command, mode, now) == Ok(p)
  }

  lemma EnqueuedRow(db: DB, actor: UserId, p: Params, at: Instant, id: JobId)
    requires id in Apply(db, EnqueueOp(actor, p), at).jobs && id !in db.jobs
    ensures Admit(db, actor, p, at) == Ok(Apply(db, EnqueueOp(actor, p), at).jobs[id])
  {
  }

  lemma AdmittedVisit(db: DB, actor: UserId, p: Params, at: Instant)
    requires Admit(db, actor, p, at).Ok?
    ensures var job := Admit(db, actor, p, at).value;
            job.command == p.command && (p.booking.Some? ==> p.booking.value in db.bookings && job.visit == db.bookings[p.booking.value].visit)
  {
  }

  /** What the engine enqueues, within ten hours of reading the clock, is what the system's enqueue step asks for. */
  lemma EngineEnqueueIsAdmissible(db: DB, actor: UserId, p: Params, r: Request, booking: BookingId, now: Instant, zone: int, at: Instant)
    requires FromEngine(p, r, booking, now, zone) && OnCalendar(r, zone) && now <= at <= now + 10 * HOUR
    requires booking in db.bookings ==> db.bookings[booking].visit == r.visit
    ensures System.Admissible(db, Apply(db, EnqueueOp(actor, p), at), at)
  {
    var db' := Apply(db, EnqueueOp(actor, p), at);
    forall id | id in db'.jobs && id !in db.jobs && db'.jobs[id].command == Book ensures db'.jobs[id].visit >= Today(at) - 1 {
      EnqueuedRow(db, actor, p, at, id);
      AdmittedVisit(db, actor, p, at);
      AdmittedVisitsAreAdmissible(r, booking, now, zone, at);
    }
  }
}
