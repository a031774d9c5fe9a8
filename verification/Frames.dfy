/** The frames of the action protocol, in both directions. */
module Frames {
  import opened Types

  /** A correlation id; the worker draws a fresh one for every exchange. */
  type Id = nat

  datatype Note = StatusNote | Heartbeat | BookingPoll | ReleaseReady | ApprovalApproved | ApprovalCancelled | ApprovalExpired

  datatype Closing = Submitted | NotRequired | OtpFailed

  /** Worker to control plane. */
  datatype ToGo =
    | WorkerReady
    | Info(note: Note)
    | CredentialsRequest(id: Id)
    | OtpPrepare(id: Id)
    | OtpTriggered(id: Id)
    | OtpClosed(id: Id, how: Closing)
    | ApprovalRequest(id: Id)
    | ConfirmationStarting(id: Id)
    | ConfirmationCompleted(id: Id)
    | RunComplete(status: JobStatus)

  /** Control plane to worker. */
  datatype ToPy =
    | RunStart
    | ControlCancel
    | CredentialsProvide(id: Id)
    | OtpReady(id: Id)
    | OtpError(id: Id)
    | OtpExpired(id: Id)
    | OtpProvide(id: Id)
    | ApprovalApprove(id: Id)
    | ApprovalCancel(id: Id)
    | ConfirmationReady(id: Id)
    | ConfirmationError(id: Id)

  predicate IsOtp(f: ToPy) {
    f.OtpReady? || f.OtpError? || f.OtpExpired? || f.OtpProvide?
  }

  /** A late provider reply to a challenge the worker has closed. */
  predicate Ignorable(f: ToPy, ignored: set<Id>) {
    IsOtp(f) && f.id in ignored
  }
}
