/** The control plane's side of one run: the event loop's state, how it handles each frame, and how it classifies the end. */
module Coordinator {
  import opened Types
  import opened Frames
  import opened Worker

  /** `challenges` maps an armed challenge to whether its code is being awaited. */
  datatype Coord = Coord(
    program: Program,
    ready: bool,
    challenges: map<Id, bool>,
    codeWaits: set<Id>,
    started: Option<Id>,
    completed: bool,
    terminal: Option<JobStatus>)

  function NewCoord(p: Program): Coord {
    Coord(p, false, map[], {}, None, false, None)
  }

  /** The calls that leave the loop while a frame is handled, and how they answer. */
  datatype Answers = Answers(armed: bool, decisionFree: bool, hook: bool)

  datatype Call = NoCall | BeginApprovalCall | MarkCall

  datatype Verdict = Continue | ProtocolFault | HookFault

  datatype Reaction = Reaction(coord: Coord, sends: seq<ToPy>, call: Call, verdict: Verdict)

  predicate Reportable(s: JobStatus) {
    s in {Succeeded, Failed, Cancelled, OutcomeUnknown}
  }

  function Fault(c: Coord): Reaction {
    Reaction(c, [], NoCall, ProtocolFault)
  }

  function Quiet(c: Coord, sends: seq<ToPy>): Reaction {
    Reaction(c, sends, NoCall, Continue)
  }

  function React(c: Coord, f: ToGo, a: Answers): Reaction {
    if !c.ready then
      if f == WorkerReady then Quiet(c.(ready := true), [RunStart]) else Fault(c)
    else
      match f
      case WorkerReady => Fault(c)
      case Info(_) => Quiet(c, [])
      case CredentialsRequest(r) => Quiet(c, [CredentialsProvide(r)])
      case OtpPrepare(id) =>
        if id in c.challenges then Fault(c)
        else if !a.armed then Quiet(c, [OtpError(id)])
        else Quiet(c.(challenges := c.challenges[id := false]), [OtpReady(id)])
      case OtpTriggered(id) =>
        if id !in c.challenges || c.challenges[id] then Fault(c)
        else Quiet(c.(challenges := c.challenges[id := true], codeWaits := c.codeWaits + {id}), [])
      case OtpClosed(id, _) => Quiet(c.(challenges := c.challenges - {id}), [])
      case ApprovalRequest(id) =>
        if !Manually(c.program) || !a.decisionFree then Fault(c)
        else Reaction(c, [], BeginApprovalCall, if a.hook then Continue else HookFault)
      case ConfirmationStarting(id) =>
        if c.started.Some? then Fault(c)
        else if !a.hook then Reaction(c, [ConfirmationError(id)], MarkCall, HookFault)
        else Reaction(c.(started := Some(id)), [ConfirmationReady(id)], MarkCall, Continue)
      case ConfirmationCompleted(id) =>
        if c.started != Some(id) then Fault(c) else Quiet(c.(completed := true), [])
      case RunComplete(s) =>
        if !Reportable(s) then Fault(c) else Quiet(c.(terminal := Some(s)), [])
  }

  /** A frame is refused exactly where the protocol is broken, and then nothing is changed, sent or called. */
  lemma RefusedExactly(c: Coord, f: ToGo, a: Answers)
    ensures var r := React(c, f, a);
            && (r.verdict == ProtocolFault <==>
                  || (f == WorkerReady <==> c.ready)
                  || (f.OtpPrepare? && f.id in c.challenges)
                  || (f.OtpTriggered? && (f.id !in c.challenges || c.challenges[f.id]))
                  || (f.ApprovalRequest? && (c.program.command != Book || c.program.mode != Manual || !a.decisionFree))
                  || (f.ConfirmationStarting? && c.started.Some?)
                  || (f.ConfirmationCompleted? && c.started != Some(f.id))
                  || (f.RunComplete? && f.status !in {Succeeded, Failed, Cancelled, OutcomeUnknown}))
            && (r.verdict == ProtocolFault ==> r.coord == c && r.sends == [] && r.call == NoCall)
            && (r.verdict == HookFault <==> r.verdict != ProtocolFault && (f.ApprovalRequest? || f.ConfirmationStarting?) && !a.hook)
  {
  }

  /** A request that is not refused is answered at once with its own id, saying how the call went; the other frames are not. */
  lemma RequestsAreAnswered(c: Coord, f: ToGo, a: Answers)
    requires React(c, f, a).verdict != ProtocolFault
    ensures var sends := React(c, f, a).sends;
            && (f == WorkerReady ==> sends == [RunStart])
            && (f.CredentialsRequest? ==> sends == [CredentialsProvide(f.id)])
            && (f.OtpPrepare? ==> sends == [if a.armed then OtpReady(f.id) else OtpError(f.id)])
            && (f.ConfirmationStarting? ==> sends == [if a.hook then ConfirmationReady(f.id) else ConfirmationError(f.id)])
            && (sends != [] ==> f == WorkerReady || f.CredentialsRequest? || f.OtpPrepare? || f.ConfirmationStarting?)
            && (React(c, f, a).call == (if f.ApprovalRequest? then BeginApprovalCall else if f.ConfirmationStarting? then MarkCall else NoCall))
  {
  }

  /** What is remembered of a frame that is not refused: challenges open and their codes awaited, the confirmation, the report. */
  lemma FramesAreRemembered(c: Coord, f: ToGo, a: Answers)
    requires React(c, f, a).verdict != ProtocolFault
    ensures var c' := React(c, f, a).coord;
            && c'.program == c.program && c'.ready
            && (forall id :: id in c'.challenges <==> (id in c.challenges && !(f.OtpClosed? && f.id == id)) || (f == OtpPrepare(id) && a.armed))
            && (forall id :: id in c'.challenges ==> (c'.challenges[id] <==> f == OtpTriggered(id) || (id in c.challenges && c.challenges[id])))
            && (forall id :: id in c'.codeWaits <==> id in c.codeWaits || f == OtpTriggered(id))
            && c'.started == (if f.ConfirmationStarting? && a.hook then Some(f.id) else c.started)
            && (c'.completed <==> c.completed || f.ConfirmationCompleted?)
            && c'.terminal == (if f.RunComplete? then Some(f.status) else c.terminal)
  {
  }

  datatype OtpOutcome = CodeArrived | CodeExpired | ProviderFailed

  function OtpReply(id: Id, o: OtpOutcome): ToPy {
    match o
    case CodeArrived => OtpProvide(id)
    case CodeExpired => OtpExpired(id)
    case ProviderFailed => OtpError(id)
  }

  /** A provider wait has ended; its result is forwarded only while the challenge is open. */
  function DeliverCode(c: Coord, id: Id, o: OtpOutcome): (Coord, seq<ToPy>)
    requires id in c.codeWaits
  {
    (c.(codeWaits := c.codeWaits - {id}), if id in c.challenges then [OtpReply(id, o)] else [])
  }

  /** A code is provided, its absence reported as expired, a failure as an error; and only while the challenge is open. */
  lemma CodesAreDelivered(c: Coord, id: Id, o: OtpOutcome)
    requires id in c.codeWaits
    ensures var (c', sends) := DeliverCode(c, id, o);
            && c' == c.(codeWaits := c.codeWaits - {id})
            && (id !in c.challenges ==> sends == [])
            && (id in c.challenges ==> (o == CodeArrived <==> sends == [OtpProvide(id)])
                                       && (o == CodeExpired <==> sends == [OtpExpired(id)]) && (o == ProviderFailed <==> sends == [OtpError(id)]))
  {
  }

  // ---------------------------------------------------------------- classification

  datatype RunResult = RunResult(status: JobStatus, message: Message, exitCode: int)

  function FinishRun(terminal: Option<RunResult>, confirmationStarted: bool, interrupted: bool, exitCode: int): RunResult {
    if terminal.Some? then
      if confirmationStarted && terminal.value.status == Failed then RunResult(OutcomeUnknown, OutcomeIsUnknown, exitCode)
      else terminal.value.(exitCode := exitCode)
    else if confirmationStarted then RunResult(OutcomeUnknown, EndedAfterConfirmation, exitCode)
    else if interrupted then RunResult(Interrupted, ActionInterrupted, exitCode)
    else RunResult(Failed, ProcessEnded, exitCode)
  }

  /** How Run answers its caller. */
  datatype Outcome = RunError | Returned(result: RunResult)

  /** The deferred rewrite: a verified completion outlives any later failure. */
  function Deferred(o: Outcome, completed: bool): Outcome {
    if completed && (o.RunError? || o.result.status != Succeeded) then
      Returned(RunResult(Succeeded, ConfirmedBeforeCleanup, if o.Returned? then o.result.exitCode else 0))
    else o
  }

  /**
   Success is reported exactly when it was observed, and a started confirmation is never reported as a plain failure;
   otherwise what the worker reported stands, and a worker that reported nothing failed or was interrupted.
   */
  lemma ClassificationIsConservative(terminal: Option<RunResult>, started: bool, completed: bool, interrupted: bool, code: int)
    requires terminal.Some? ==> Reportable(terminal.value.status)
    ensures var r := Deferred(Returned(FinishRun(terminal, started, interrupted, code)), completed).result;
            && (r.status == Succeeded <==> completed || (terminal.Some? && terminal.value.status == Succeeded))
            && (started ==> r.status in {Succeeded, OutcomeUnknown, Cancelled})
            && (r.status == OutcomeUnknown ==> started || (terminal.Some? && terminal.value.status == OutcomeUnknown))
            && (r.status == Interrupted <==> terminal.None? && !completed && interrupted && !started)
            && (r.status == Cancelled <==> !completed && terminal.Some? && terminal.value.status == Cancelled)
            && (r.status == Failed <==> !completed && !started && (if terminal.Some? then terminal.value.status == Failed else !interrupted))
            && (terminal.Some? && r.status == terminal.value.status ==> r.message == terminal.value.message)
            && r.exitCode == code
    ensures Deferred(RunError, completed).Returned? <==> completed
  {
  }

  // ---------------------------------------------------------------- the event loop

  datatype LoopEvent =
    | ContextDone
    | FrameArrived(frame: ToGo, answers: Answers)
    | EventsClosed
    | CodeWaitEnded(id: Id, outcome: OtpOutcome, sent: bool)
    | ApprovalWaitEnded(id: Id, decision: Option<Decision>, hook: bool, sent: bool)
    | ProcessExited(exitCode: int)

  class RunState {
    const program: Program
    var ready: bool
    var challenges: map<Id, bool>
    var codeWaits: set<Id>
    var started: Option<Id>
    var completed: bool
    var terminal: Option<JobStatus>
    var outbox: seq<ToPy>

    function State(): Coord
      reads this
    {
      Coord(program, ready, challenges, codeWaits, started, completed, terminal)
    }

    constructor (program: Program)
      ensures State() == NewCoord(program) && outbox == []
    {
      this.program := program;
      ready, challenges, codeWaits := false, map[], {};
      started, completed, terminal, outbox := None, false, None, [];
    }

    /** handleFrame, with the readiness handshake that Run makes before it. */
    method HandleFrame(f: ToGo, a: Answers) returns (verdict: Verdict)
      modifies this
      ensures var r := React(old(State()), f, a); State() == r.coord && outbox == old(outbox) + r.sends && verdict == r.verdict
      // a refused frame changes nothing; a request that is not refused gets its own answer
      ensures verdict == ProtocolFault ==> State() == old(State()) && outbox == old(outbox)
      ensures verdict != ProtocolFault && f == WorkerReady ==> ready && outbox == old(outbox) + [RunStart]
      ensures verdict != ProtocolFault && f.CredentialsRequest? ==> outbox == old(outbox) + [CredentialsProvide(f.id)]
      ensures verdict != ProtocolFault && f.OtpPrepare? ==>
                outbox == old(outbox) + [if a.armed then OtpReady(f.id) else OtpError(f.id)] && (a.armed ==> f.id in challenges && !challenges[f.id])
      ensures verdict != ProtocolFault && f.OtpTriggered? ==> f.id in codeWaits && f.id in challenges && challenges[f.id]
      ensures verdict != ProtocolFault && f.OtpClosed? ==> f.id !in challenges
      ensures verdict != ProtocolFault && f.ConfirmationStarting? ==>
                outbox == old(outbox) + [if a.hook then ConfirmationReady(f.id) else ConfirmationError(f.id)] && (a.hook ==> started == Some(f.id))
      ensures completed <==> old(completed) || (verdict != ProtocolFault && f.ConfirmationCompleted?)
      ensures terminal == if verdict != ProtocolFault && f.RunComplete? then Some(f.status) else old(terminal)
    {
      if !ready {
        if f != WorkerReady {
          return ProtocolFault;
        }
        ready := true;
        outbox := outbox + [RunStart];
        return Continue;
      }
      match f {
      case WorkerReady => return ProtocolFault;
      case Info(_) =>
      case CredentialsRequest(id) => outbox := outbox + [CredentialsProvide(id)];
      case OtpPrepare(id) =>
        if id in challenges {
          return ProtocolFault;
        }
        if !a.armed {
          outbox := outbox + [OtpError(id)];
          return Continue;
        }
        challenges := challenges[id := false];
        outbox := outbox + [OtpReady(id)];
      case OtpTriggered(id) =>
        if id !in challenges || challenges[id] {
          return ProtocolFault;
        }
        challenges := challenges[id := true];
        codeWaits := codeWaits + {id};
      case OtpClosed(id, _) => challenges := challenges - {id};
      case ApprovalRequest(id) =>
        if !Manually(program) || !a.decisionFree {
          return ProtocolFault;
        }
        if !a.hook {
          return HookFault;
        }
      case ConfirmationStarting(id) =>
        if started.Some? {
          return ProtocolFault;
        }
        if !a.hook {
          outbox := outbox + [ConfirmationError(id)];
          return HookFault;
        }
        started := Some(id);
        outbox := outbox + [ConfirmationReady(id)];
      case ConfirmationCompleted(id) =>
        if started.None? || started.value != id {
          return ProtocolFault;
        }
        completed := true;
      case RunComplete(s) =>
        if !Reportable(s) {
          return ProtocolFault;
        }
        terminal := Some(s);
      }
      return Continue;
    }

    /** A completion belongs to a started confirmation, and only final statuses are recorded. */
    ghost predicate Consistent()
      reads this
    {
      (completed ==> started.Some?) && (terminal.Some? ==> Reportable(terminal.value))
    }

    method OnFrame(f: ToGo, a: Answers) returns (verdict: Verdict)
      requires Consistent()
      modifies this
      ensures Consistent()
    {
      verdict := HandleFrame(f, a);
    }

    /** A code wait ended: the worker is told while the wait and its challenge are still open. */
    method TellCode(id: Id, outcome: OtpOutcome, sent: bool) returns (told: bool)
      modifies this`codeWaits, this`outbox
      ensures codeWaits == old(codeWaits) - {id}
      ensures outbox == old(outbox) + (if id in old(codeWaits) && id in challenges then [OtpReply(id, outcome)] else [])
      ensures id in old(codeWaits) && id in challenges ==>
                outbox == old(outbox) + [match outcome case CodeArrived => OtpProvide(id) case CodeExpired => OtpExpired(id) case ProviderFailed => OtpError(id)]
      ensures !told <==> outbox != old(outbox) && outcome == CodeArrived && !sent
    {
      if id in codeWaits {
        codeWaits := codeWaits - {id};
        if id in challenges {
          outbox := outbox + [OtpReply(id, outcome)];
          if outcome == CodeArrived && !sent {
            return false;
          }
        }
      }
      told := true;
    }

    /** An approval wait ended: an approval is sent only once it is committed, anything else cancels. */
    method TellDecision(id: Id, decision: Option<Decision>, hook: bool, sent: bool) returns (told: bool)
      modifies this`outbox
      ensures outbox == old(outbox) + (if decision != Some(Approve) then [ApprovalCancel(id)] else if hook then [ApprovalApprove(id)] else [])
      ensures told <==> (decision.Some? ==> sent) && (decision == Some(Approve) ==> hook)
    {
      if decision == Some(Approve) {
        if !hook {
          return false;
        }
        outbox := outbox + [ApprovalApprove(id)];
      } else {
        outbox := outbox + [ApprovalCancel(id)];
      }
      told := decision.None? || sent;
    }

    /**
     The loop over any finite sequence of events, of which it looks at the first `used`; None when it is still running at
     their end. It ends when the process has exited and its frames are all read, or at the first fault. A confirmation that
     was seen to complete is returned as a success on every path.
     */
    method Run(events: seq<LoopEvent>) returns (answer: Option<Outcome>, used: nat)
      requires State() == NewCoord(program)
      modifies this
      ensures used <= |events| && (answer.None? ==> used == |events| && !Over(events))
      ensures completed ==> started.Some?
      ensures answer.Some? && completed ==> answer.value.Returned? && answer.value.result.status == Succeeded
      ensures answer.Some? && !completed && answer.value.Returned? ==>
                var r := answer.value.result;
                && Over(events[..used]) && ProcessExited(r.exitCode) in events[..used]
                && (r.status == Succeeded <==> terminal == Some(Succeeded))
                && (r.status == Cancelled <==> terminal == Some(Cancelled))
                && (r.status == OutcomeUnknown <==> terminal == Some(OutcomeUnknown) || (started.Some? && terminal in {None, Some(Failed)}))
                && (r.status == Interrupted <==> terminal.None? && started.None? && ContextDone in events[..used])
                && (r.status == Failed <==> started.None? && (terminal == Some(Failed) || (terminal.None? && ContextDone !in events[..used])))
      ensures answer == Some(RunError) ==> used > 0 && MayFault(events[used - 1])
    {
      var interrupted, eventsOpen := false, true;
      var exit: Option<int> := None;
      answer, used := None, 0;
      while used < |events|
        invariant used <= |events| && Consistent()
        invariant interrupted <==> ContextDone in events[..used]
        invariant eventsOpen <==> EventsClosed !in events[..used]
        invariant exit.Some? ==> ProcessExited(exit.value) in events[..used]
        invariant (exists code :: ProcessExited(code) in events[..used]) ==> exit.Some?
        invariant exit.None? || eventsOpen
      {
        var event := events[used];
        used := used + 1;
        assert events[..used] == events[..used - 1] + [event];
        match event {
        case ContextDone => interrupted := true;
        case FrameArrived(f, a) =>
          var verdict := OnFrame(f, a);
          if verdict != Continue {
            return Some(Deferred(RunError, completed)), used;
          }
        case EventsClosed =>
          eventsOpen := false;
        case CodeWaitEnded(id, outcome, sent) =>
          var told := TellCode(id, outcome, sent);
          if !told {
            return Some(Deferred(RunError, completed)), used;
          }
        case ApprovalWaitEnded(id, decision, hook, sent) =>
          var told := TellDecision(id, decision, hook, sent);
          if !told {
            return Some(Deferred(RunError, completed)), used;
          }
        case ProcessExited(code) =>
          exit := Some(code);
        }
        if exit.Some? && !eventsOpen {
          return Some(Ended(interrupted, exit.value)), used;
        }
      }
      assert events[..used] == events;
    }

    /** finishRun, with the deferred rewrite. */
    function Ended(interrupted: bool, exitCode: int): Outcome
      reads this
    {
      var report := if terminal.Some? then Some(RunResult(terminal.value, NoMessage, 0)) else None;
      Deferred(Returned(FinishRun(report, started.Some?, interrupted, exitCode)), completed)
    }
  }

  /** The process has exited and its frames are all read. */
  ghost predicate Over(events: seq<LoopEvent>) {
    EventsClosed in events && exists code :: ProcessExited(code) in events
  }

  /** A frame, a code that could not be sent, or a decision that could not be committed or sent. */
  predicate MayFault(event: LoopEvent) {
    || event.FrameArrived?
    || (event.CodeWaitEnded? && event.outcome == CodeArrived && !event.sent)
    || (event.ApprovalWaitEnded? && event.decision.Some? && (!event.sent || (event.decision == Some(Approve) && !event.hook)))
  }
}
