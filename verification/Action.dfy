/**
 The Python worker as a program: the browser, the clock and the control plane answer arbitrarily,
 and every frame sent or taken, and the click, is recorded. Each act must be one the automaton allows,
 so verifying this class shows that every trace of the program is a trace of the automaton.
 */
module Action {
  import opened Types
  import opened Frames
  import opened Worker

  /** A Python call: it returns a value or raises. An exception is recorded as the status it will be reported with. */
  datatype Flow<+T> = Value(value: T) | Raised

  datatype AuthState = SignedIn | OtpShown | DeadlinePassed | Unrecognized

  class YodelAction {
    const program: Program
    const passes: nat
    /** How many more protocol events happen before the process is killed; any number is possible. */
    var budget: nat
    var nextId: Id
    ghost var log: seq<Act>
    /** Where the program stands: what its next wait accepts, and the status an exception is reported with. */
    var pc: Pc

    ghost predicate Valid()
      reads this
    {
      Run(program, Boot, log) == Some(pc)
    }

    ghost predicate Over()
      reads this
    {
      pc.Ending? || pc == Exited
    }

    constructor (program: Program, passes: nat, budget: nat)
      ensures Valid() && pc == Boot && log == [] && this.program == program && this.passes == passes
    {
      this.program, this.passes, this.budget := program, passes, budget;
      nextId := 0;
      log, pc := [], Boot;
    }

    method Record(act: Act)
      requires Valid() && Next(program, pc, act).Some?
      modifies this`log, this`pc
      ensures Valid() && log == old(log) + [act] && Some(pc) == Next(program, old(pc), act)
    {
      RunAppend(program, Boot, log, act);
      log := log + [act];
      pc := Next(program, pc, act).value;
    }

    method Fresh() returns (id: Id)
      modifies this`nextId
      ensures id == old(nextId) && nextId == id + 1
    {
      id := nextId;
      nextId := nextId + 1;
    }

    /** An exception on its way to the top level. */
    method RaiseAs(status: JobStatus)
      requires Valid() && MayReport(pc, status)
      modifies this`log, this`pc
      ensures Valid() && pc == Ending(status)
    {
      Record(Raise(status));
    }

    /** One protocol event; false when the process is killed instead. */
    method Alive() returns (alive: bool)
      requires Valid()
      modifies this`budget, this`log, this`pc
      ensures Valid()
      ensures alive ==> budget < old(budget) && log == old(log) && pc == old(pc)
      ensures !alive ==> pc == Exited && budget == old(budget)
    {
      if budget == 0 {
        Record(Die);
        return false;
      }
      budget := budget - 1;
      return true;
    }

    method EmitFrame(f: ToGo) returns (r: Flow<()>)
      requires Valid() && Send(program, pc, f).Some?
      modifies this`budget, this`log, this`pc
      ensures Valid() && budget <= old(budget)
      ensures r.Value? ==> Some(pc) == Send(program, old(pc), f) && budget < old(budget)
      ensures r.Raised? ==> pc == Exited
    {
      var alive := Alive();
      if !alive {
        return Raised;
      }
      Record(Emit(f));
      return Value(());
    }

    /** inbox.receive: any frame may come, nothing may come before the timeout, or the stream may close. */
    method ReceiveFrame(timed: bool) returns (r: Flow<Option<ToPy>>)
      requires Valid() && Waiting(pc) && pc != AwaitStart
      modifies this`budget, this`log, this`pc
      ensures Valid() && budget <= old(budget)
      ensures r.Value? ==> budget < old(budget)
      ensures r.Value? && r.value.None? ==> pc == old(pc) && timed
      ensures r.Value? && r.value.Some? ==> Expects(old(pc), r.value.value) && pc == Receive(old(pc), r.value.value)
      ensures r.Raised? ==> Over()
    {
      var alive := Alive();
      if !alive {
        return Raised;
      }
      var closed: bool := *;
      if closed {
        RaiseAs(Cancelled);
        return Raised;
      }
      var nothing: bool := *;
      if timed && nothing {
        return Value(None);
      }
      var f: ToPy := *;
      var before := pc;
      Record(Take(f));
      if f == ControlCancel || !Expects(before, f) {
        return Raised;
      }
      return Value(Some(f));
    }

    method CheckCancelled() returns (r: Flow<()>)
      requires Valid() && MayReport(pc, Cancelled)
      modifies this`budget, this`log, this`pc
      ensures Valid() && budget <= old(budget)
      ensures r.Value? ==> pc == old(pc) && budget < old(budget)
      ensures r.Raised? ==> Over()
    {
      var alive := Alive();
      if !alive {
        return Raised;
      }
      var cancelled: bool := *;
      if cancelled {
        RaiseAs(Cancelled);
        return Raised;
      }
      return Value(());
    }

    /** A step that may fail with an exception, or be interrupted. */
    method Browse() returns (r: Flow<bool>)
      requires Valid() && MayReport(pc, Failed)
      modifies this`log, this`pc
      ensures Valid()
      ensures r.Value? ==> pc == old(pc)
      ensures r.Raised? ==> Over()
    {
      var fails: bool := *;
      if fails {
        RaiseAs(Failed);
        return Raised;
      }
      var interrupted: bool := *;
      if interrupted {
        RaiseAs(Cancelled);
        return Raised;
      }
      var answer: bool := *;
      return Value(answer);
    }

    method Note(note: Note) returns (r: Flow<()>)
      requires Valid() && pc !in {Boot, AwaitStart, Exited}
      modifies this`budget, this`log, this`pc
      ensures Valid() && budget <= old(budget)
      ensures r.Value? ==> pc == old(pc)
      ensures r.Raised? ==> Over()
    {
      r := EmitFrame(Info(note));
    }

    // ---------------------------------------------------------------- request/reply operations

    method RequestCredentials() returns (r: Flow<()>)
      requires Valid() && pc == Free
      modifies this
      ensures Valid() && budget <= old(budget)
      ensures r.Value? ==> pc == Free
      ensures r.Raised? ==> Over()
    {
      var id := Fresh();
      var sent := EmitFrame(CredentialsRequest(id));
      if sent.Raised? {
        return Raised;
      }
      var frame := ReceiveFrame(false);
      if frame.Raised? {
        return Raised;
      }
      return Value(());
    }

    method FailChallenge(c: Id)
      requires Valid() && pc in {AwaitArm(c), Armed(c), Triggered(c), HaveCode(c), Closing(c)}
      modifies this
      ensures Valid() && Over() && budget <= old(budget)
    {
      var sent := EmitFrame(OtpClosed(c, OtpFailed));
      if sent.Value? {
        RaiseAs(Failed);
      }
    }

    method PrepareOtp() returns (r: Flow<Id>)
      requires Valid() && pc == Free
      modifies this
      ensures Valid() && budget <= old(budget)
      ensures r.Value? ==> pc == Armed(r.value)
      ensures r.Raised? ==> Over()
    {
      var pastDeadline: bool := *;
      if pastDeadline {
        RaiseAs(Failed);
        return Raised;
      }
      var c := Fresh();
      var sent := EmitFrame(OtpPrepare(c));
      if sent.Raised? {
        return Raised;
      }
      var frame := ReceiveFrame(true);
      if frame.Raised? {
        return Raised;
      }
      var late: bool := *;
      if frame.value.None? || late || !frame.value.value.OtpReady? {
        FailChallenge(c);
        return Raised;
      }
      return Value(c);
    }

    method WaitForOtp(c: Id) returns (r: Flow<()>)
      requires Valid() && pc == Triggered(c)
      modifies this
      ensures Valid() && budget <= old(budget)
      ensures r.Value? ==> pc == HaveCode(c)
      ensures r.Raised? ==> Over()
    {
      var pastDeadline: bool := *;
      if pastDeadline {
        FailChallenge(c);
        return Raised;
      }
      var frame := ReceiveFrame(true);
      if frame.Raised? {
        return Raised;
      }
      var late: bool := *;
      if frame.value.None? || late || !frame.value.value.OtpProvide? {
        FailChallenge(c);
        return Raised;
      }
      return Value(());
    }

    method WaitForApproval() returns (r: Flow<()>)
      requires Valid() && pc == Free && Manually(program)
      modifies this
      ensures Valid() && budget <= old(budget)
      ensures r.Value? ==> pc == Approved
      ensures r.Raised? ==> Over()
    {
      var a := Fresh();
      var sent := EmitFrame(ApprovalRequest(a));
      if sent.Raised? {
        return Raised;
      }
      while true
        invariant Valid() && pc == AwaitApproval(a) && budget <= old(budget)
        decreases budget
      {
        var browserReady: bool := *;
        if !browserReady {
          var expired := Note(ApprovalExpired);
          if expired.Value? {
            RaiseAs(Failed);
          }
          return Raised;
        }
        var frame := ReceiveFrame(true);
        if frame.Raised? {
          return Raised;
        }
        if frame.value.None? {
          var due: bool := *;
          if due {
            var beat := Note(Heartbeat);
            if beat.Raised? {
              return Raised;
            }
          }
          continue;
        }
        if frame.value.value.ApprovalCancel? {
          var told := Note(ApprovalCancelled);
          return Raised;
        }
        var told := Note(ApprovalApproved);
        if told.Raised? {
          return Raised;
        }
        return Value(());
      }
    }

    method AwaitConfirmationReady() returns (r: Flow<Id>)
      requires Valid() && (pc == Approved || (pc == Free && program.command == Book && program.mode == Auto))
      modifies this
      ensures Valid() && budget <= old(budget)
      ensures r.Value? ==> pc == ReadyToClick(r.value)
      ensures r.Raised? ==> Over()
    {
      var n := Fresh();
      var sent := EmitFrame(ConfirmationStarting(n));
      if sent.Raised? {
        return Raised;
      }
      var frame := ReceiveFrame(false);
      if frame.Raised? || frame.value.value.ConfirmationError? {
        return Raised;
      }
      return Value(n);
    }

    // ---------------------------------------------------------------- authentication

    method FillAndSubmitOtp(c: Id) returns (r: Flow<()>)
      requires Valid() && pc == Triggered(c)
      modifies this
      ensures Valid() && budget <= old(budget)
      ensures r.Value? ==> pc == Free
      ensures r.Raised? ==> Over()
    {
      var page := Browse();
      if page.Raised? {
        return Raised;
      }
      var code := WaitForOtp(c);
      if code.Raised? {
        return Raised;
      }
      var inputs := Browse();
      if inputs.Raised? {
        return Raised;
      }
      var late: bool := *;
      if !inputs.value || late {
        FailChallenge(c);
        return Raised;
      }
      var filled := Browse();
      if filled.Raised? {
        return Raised;
      }
      r := EmitFrame(OtpClosed(c, Submitted));
    }

    /** The common part of a login submit and of a resend: arm first, then click, then report the trigger. */
    method TriggerOtp() returns (r: Flow<Id>)
      requires Valid() && pc == Free
      modifies this
      ensures Valid() && budget <= old(budget)
      ensures r.Value? ==> pc == Triggered(r.value)
      ensures r.Raised? ==> Over()
    {
      r := PrepareOtp();
      if r.Raised? {
        return Raised;
      }
      var c := r.value;
      var late: bool := *;
      var clicked: bool := *;
      if late || !clicked {
        FailChallenge(c);
        return Raised;
      }
      var sent := EmitFrame(OtpTriggered(c));
      return if sent.Raised? then Raised else Value(c);
    }

    method CompleteLoginForm() returns (r: Flow<()>)
      requires Valid() && pc == Free
      modifies this
      ensures Valid() && budget <= old(budget)
      ensures r.Value? ==> pc == Free
      ensures r.Raised? ==> Over()
    {
      var form := Browse();
      if form.Raised? {
        return Raised;
      }
      r := RequestCredentials();
      if r.Raised? {
        return Raised;
      }
      form := Browse();
      if form.Raised? {
        return Raised;
      }
      var challenge := TriggerOtp();
      if challenge.Raised? {
        return Raised;
      }
      var c := challenge.value;
      r := CheckCancelled();
      if r.Raised? {
        return Raised;
      }
      var state: AuthState := *;
      match state
      case SignedIn => r := EmitFrame(OtpClosed(c, NotRequired));
      case OtpShown => r := FillAndSubmitOtp(c);
      case _ =>
        FailChallenge(c);
        return Raised;
    }

    method CompleteExistingOtpChallenge() returns (r: Flow<()>)
      requires Valid() && pc == Free
      modifies this
      ensures Valid() && budget <= old(budget)
      ensures r.Value? ==> pc == Free
      ensures r.Raised? ==> Over()
    {
      var resend := Browse();
      if resend.Raised? {
        return Raised;
      }
      if !resend.value {
        RaiseAs(Failed);
        return Raised;
      }
      var challenge := TriggerOtp();
      if challenge.Raised? {
        return Raised;
      }
      r := FillAndSubmitOtp(challenge.value);
    }

    method EnsureAuthenticated() returns (r: Flow<bool>)
      requires Valid() && pc == Free
      modifies this
      ensures Valid() && budget <= old(budget)
      ensures r.Value? ==> pc == Free
      ensures r.Raised? ==> Over()
    {
      var told := Note(StatusNote);
      if told.Raised? {
        return Raised;
      }
      var page := Browse();
      if page.Raised? {
        return Raised;
      }
      for attempt := 0 to 8
        invariant Valid() && pc == Free && budget <= old(budget)
      {
        var go := CheckCancelled();
        if go.Raised? {
          return Raised;
        }
        var state: AuthState := *;
        var step: Flow<()> := Value(());
        match state {
          case SignedIn =>
            told := Note(StatusNote);
            return if told.Raised? then Raised else Value(true);
          case OtpShown =>
            step := CompleteExistingOtpChallenge();
          case Unrecognized =>
            var hasForm: bool := *;
            if hasForm {
              step := CompleteLoginForm();
            } else {
              var panel := Browse();
              if panel.Raised? {
                return Raised;
              }
              if !panel.value {
                told := Note(StatusNote);
                return if told.Raised? then Raised else Value(false);
              }
            }
          case DeadlinePassed =>
            told := Note(StatusNote);
            return if told.Raised? then Raised else Value(false);
        }
        if step.Raised? {
          return Raised;
        }
      }
      told := Note(StatusNote);
      return if told.Raised? then Raised else Value(false);
    }

    method WaitForReleaseIfNeeded() returns (r: Flow<()>)
      requires Valid() && pc == Free
      modifies this
      ensures Valid() && budget <= old(budget)
      ensures r.Value? ==> pc == Free
      ensures r.Raised? ==> Over()
    {
      var scheduled: bool := *;
      if !scheduled {
        return Value(());
      }
      var beforeRelease: bool := *;
      while beforeRelease
        invariant Valid() && pc == Free && budget <= old(budget)
        decreases budget, beforeRelease
      {
        r := CheckCancelled();
        if r.Raised? {
          return Raised;
        }
        var beat: bool := *;
        if beat {
          r := Note(Heartbeat);
          if r.Raised? {
            return Raised;
          }
        }
        var sessionLost: bool := *;
        if sessionLost {
          var again := EnsureAuthenticated();
          if again.Raised? {
            return Raised;
          }
          if !again.value {
            RaiseAs(Failed);
            return Raised;
          }
        }
        beforeRelease := *;
      }
      var signedIn: bool := *;
      if !signedIn {
        var pastDeadline: bool := *;
        if pastDeadline {
          RaiseAs(Failed);
          return Raised;
        }
        var again := EnsureAuthenticated();
        if again.Raised? {
          return Raised;
        }
        if !again.value {
          RaiseAs(Failed);
          return Raised;
        }
      }
      r := Note(ReleaseReady);
    }

    // ---------------------------------------------------------------- booking

    method ClickFinalConfirmation() returns (r: Flow<()>)
      requires Valid() && (pc == Approved || (pc == Free && program.command == Book && program.mode == Auto))
      modifies this
      ensures Valid() && budget <= old(budget)
      ensures r.Value? ==> pc == Confirmed
      ensures r.Raised? ==> Over()
    {
      var go := CheckCancelled();
      if go.Raised? {
        return Raised;
      }
      var page := Browse();
      if page.Raised? {
        return Raised;
      }
      var ready := AwaitConfirmationReady();
      if ready.Raised? {
        return Raised;
      }
      var observing: bool := *;
      if !observing {
        var interrupted: bool := *;
        RaiseAs(if interrupted then Cancelled else OutcomeUnknown);
        return Raised;
      }
      Record(Click);
      var verified: bool := *;
      if !verified {
        var interrupted: bool := *;
        RaiseAs(if interrupted then Cancelled else OutcomeUnknown);
        return Raised;
      }
      r := EmitFrame(ConfirmationCompleted(ready.value));
    }

    /** Past the approval or the confirmation there is no way back to the poll loop. */
    method TryPass() returns (r: Flow<bool>)
      requires Valid() && pc == Free && program.command != AuthCheck && (program.command == DryRun || program.mode != ModeDryRun)
      modifies this
      ensures Valid() && budget <= old(budget)
      ensures r.Value? && r.value ==> pc == (if program.command == Book then Confirmed else Free)
      ensures r.Value? && !r.value ==> pc == Free
      ensures r.Raised? ==> Over()
    {
      var told := Note(StatusNote);
      if told.Raised? {
        return Raised;
      }
      var available := Browse();
      if available.Raised? {
        return Raised;
      }
      if !available.value {
        return Value(false);
      }
      if program.command == DryRun {
        return Value(true);
      }
      var checkout := Browse();
      if checkout.Raised? {
        return Raised;
      }
      if !checkout.value {
        return Value(false);
      }
      if program.mode == Manual {
        var approval := WaitForApproval();
        if approval.Raised? {
          return Raised;
        }
      }
      var cart := Browse();
      if cart.Raised? {
        return Raised;
      }
      var click := ClickFinalConfirmation();
      if click.Raised? {
        return Raised;
      }
      return Value(true);
    }

    method TryBookingOnce() returns (r: Flow<bool>)
      requires Valid() && pc == Free && program.command != AuthCheck && (program.command == DryRun || program.mode != ModeDryRun)
      modifies this
      ensures Valid() && budget <= old(budget)
      ensures r.Value? && r.value ==> pc == (if program.command == Book then Confirmed else Free)
      ensures r.Value? && !r.value ==> pc == Free
      ensures r.Raised? ==> Over()
    {
      for key := 0 to passes
        invariant Valid() && pc == Free && budget <= old(budget)
      {
        var go := CheckCancelled();
        if go.Raised? {
          return Raised;
        }
        var result := TryPass();
        if result.Raised? {
          return Raised;
        }
        var told := Note(StatusNote);
        if told.Raised? {
          return Raised;
        }
        if result.value {
          return Value(true);
        }
      }
      return Value(false);
    }

    /** Any number of attempts over any pass order asks for approval, starts a confirmation and clicks at most once. */
    method PollForBooking() returns (r: Flow<bool>)
      requires Valid() && pc == Free && program.command == Book && program.mode != ModeDryRun
      modifies this
      ensures Valid() && budget <= old(budget)
      ensures r.Value? ==> pc == (if r.value then Confirmed else Free)
      ensures r.Raised? ==> Over()
      ensures Count(log, AsksApproval) <= 1 && Count(log, StartsConfirmation) <= 1 && Count(log, a => a == Click) <= 1
    {
      AtMostOnce(program, Boot, log);
      var beforeDeadline: bool := *;
      while beforeDeadline
        invariant Valid() && pc == Free && budget <= old(budget)
        invariant Count(log, AsksApproval) <= 1 && Count(log, StartsConfirmation) <= 1 && Count(log, a => a == Click) <= 1
        decreases budget, beforeDeadline
      {
        var go := CheckCancelled();
        if go.Raised? {
          AtMostOnce(program, Boot, log);
          return Raised;
        }
        var polled := Note(BookingPoll);
        if polled.Raised? {
          AtMostOnce(program, Boot, log);
          return Raised;
        }
        r := TryBookingOnce();
        AtMostOnce(program, Boot, log);
        if r.Raised? || r.value {
          return;
        }
        beforeDeadline := *;
      }
      return Value(false);
    }

    method Execute() returns (r: Flow<bool>)
      requires Valid() && pc == Free && (program.command == Book ==> program.mode != ModeDryRun)
      modifies this
      ensures Valid() && budget <= old(budget)
      ensures r.Value? && r.value ==> Next(program, pc, Succeed).Some?
      ensures r.Value? && !r.value ==> pc == Free
      ensures r.Raised? ==> Over()
    {
      r := EnsureAuthenticated();
      if r.Raised? || !r.value || program.command == AuthCheck {
        return;
      }
      if program.command == DryRun {
        r := TryBookingOnce();
        return;
      }
      var released := WaitForReleaseIfNeeded();
      if released.Raised? {
        return Raised;
      }
      r := PollForBooking();
    }

    /** From an accepted start frame to the status that will be reported. */
    method RunAction()
      requires Valid() && pc == Free && (program.command == Book ==> program.mode != ModeDryRun)
      modifies this
      ensures Valid() && Over()
    {
      // the configuration may be rejected before anything is said
      var configured := Browse();
      if configured.Raised? {
        return;
      }
      var told := Note(StatusNote);
      if told.Raised? {
        return;
      }
      var launched := Browse();
      if launched.Raised? {
        return;
      }
      var result := Execute();
      if result.Value? {
        if result.value {
          Record(Succeed);
        } else {
          RaiseAs(Failed);
        }
      }
    }

    /** The whole process: its trace is accepted from start to exit, whatever the outside world did. */
    method Process()
      requires Valid() && pc == Boot && (program.command == Book ==> program.mode != ModeDryRun)
      modifies this
      ensures Run(program, Boot, log) == Some(Exited)
      ensures Count(log, AsksApproval) <= 1 && Count(log, StartsConfirmation) <= 1 && Count(log, a => a == Click) <= 1
    {
      var hello := EmitFrame(WorkerReady);
      if hello.Value? {
        var frame: ToPy := *;
        Record(Take(frame));
        if frame == RunStart {
          RunAction();
        }
      }
      if pc != Exited {
        var done := EmitFrame(RunComplete(pc.status));
      }
      AtMostOnce(program, Boot, log);
    }
  }
}
