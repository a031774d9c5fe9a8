/** The job vocabulary shared by the store, the coordinator, the engine and the worker. */
module Types {

  datatype Option<+T> = None | Some(value: T)

  datatype Result<+T> = Ok(value: T) | Err(error: Error)

  datatype Error =
    | NotFound
    | Conflict
    | ResourceLimit
    | TransitionConflict
    | DecisionConflict
    | Invalid

  type JobId = nat
  type UserId = nat
  type ProfileId = nat
  type SourceId = nat
  type BookingId = nat

  /** Nanoseconds since the epoch. */
  type Instant = int

  /** A calendar day, counted from the epoch. */
  type Day = int

  datatype JobStatus =
    | Queued
    | Running
    | AwaitingApproval
    | Succeeded
    | Failed
    | Cancelled
    | Interrupted
    | OutcomeUnknown

  predicate Terminal(s: JobStatus) {
    s in {Succeeded, Failed, Cancelled, Interrupted, OutcomeUnknown}
  }

  /** A row holding the leases on its profile and its OTP source. */
  predicate Active(s: JobStatus) {
    s == Running || s == AwaitingApproval
  }

  predicate Pending(s: JobStatus) {
    s == Queued || Active(s)
  }

  predicate CanTransition(from: JobStatus, to: JobStatus) {
    match from
    case Queued => to in {Running, Cancelled}
    case Running => to in {AwaitingApproval, Succeeded, Failed, Cancelled, Interrupted, OutcomeUnknown}
    case AwaitingApproval => to in {Running, Cancelled, Failed, Interrupted, OutcomeUnknown}
    case _ => false
  }

  datatype Command = AuthCheck | DryRun | Book

  datatype RunMode = ModeDryRun | Manual | Auto

  datatype Decision = Approve | Decline

  /** A stored message: reported text, or one of the fixed texts by name. */
  datatype Message =
    | NoMessage
    | Reported(text: string)
    | OutcomeIsUnknown
    | CancelRequestedOrDisabled
    | CancelledBeforeExecution
    | AccountWasDisabled
    | RestartInterrupted
    | RestartAfterConfirmation
    | WindowExpired
    | CouldNotRun
    | ShutdownInterrupted
    | OperatorCancelled
    | ArtifactLimit
    | ExecutionLimit
    | ConfirmedBeforeCleanup
    | ProcessEnded
    | EndedAfterConfirmation
    | ActionInterrupted
    | NothingPaired

  datatype Job = Job(
    user: UserId,
    booking: Option<BookingId>,
    profile: ProfileId,
    source: SourceId,
    command: Command,
    mode: RunMode,
    immediate: bool,
    visit: Day,
    status: JobStatus,
    due: Instant,
    expires: Option<Instant>,
    dedup: string,
    owner: string,
    cancel: bool,
    message: Message,
    exitCode: Option<int>,
    marker: Option<Instant>,
    updated: Instant,
    started: Option<Instant>,
    finished: Option<Instant>)

  const MAX_IMMEDIATE_LIFETIME: int := 15 * 60 * 1_000_000_000

  /** The immediate-booking rule checked at enqueue and again before every execution. */
  predicate ValidImmediateRun(immediate: bool, command: Command, mode: RunMode, due: Instant, expires: Option<Instant>) {
    immediate ==>
      && command == Book
      && mode == Manual
      && expires.Some?
      && expires.value > due
      && expires.value - due <= MAX_IMMEDIATE_LIFETIME
  }
}
