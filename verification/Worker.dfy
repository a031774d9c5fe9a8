/** The worker's side of the protocol, as an automaton over what it sends, what it receives and the one click. */
module Worker {
  import opened Types
  import opened Frames

  datatype Act =
    | Emit(sent: ToGo)
    | Take(received: ToPy)
    | Click
    | Raise(outcome: JobStatus)   // an exception reaches the top level, which reports this status
    | Succeed                     // the action returns a successful result
    | Die                         // the process is killed

  datatype Pc =
    | Boot
    | AwaitStart
    | Free
    | AwaitCredentials(id: Id)
    | AwaitArm(id: Id)
    | Armed(id: Id)
    | Triggered(id: Id)
    | HaveCode(id: Id)
    | Closing(id: Id)
    | AwaitApproval(id: Id)
    | Approved
    | AwaitConfirmation(id: Id)
    | ReadyToClick(id: Id)
    | Clicked(id: Id)
    | Confirmed
    | Ending(status: JobStatus)
    | Exited

  /** The program being run: fixed by run.start. */
  datatype Program = Program(command: Command, mode: RunMode)

  predicate Manually(p: Program) {
    p.command == Book && p.mode == Manual
  }

  /** A reply the current wait accepts. */
  predicate Expects(pc: Pc, f: ToPy) {
    match pc
    case AwaitStart => f.RunStart?
    case AwaitCredentials(r) => f == CredentialsProvide(r)
    case AwaitArm(c) => f == OtpReady(c) || f == OtpError(c) || f == OtpExpired(c)
    case Triggered(c) => f == OtpProvide(c) || f == OtpError(c) || f == OtpExpired(c)
    case AwaitApproval(a) => f == ApprovalApprove(a) || f == ApprovalCancel(a)
    case AwaitConfirmation(n) => f == ConfirmationReady(n) || f == ConfirmationError(n)
    case _ => false
  }

  /** The control points at which the program waits for a frame. */
  predicate Waiting(pc: Pc) {
    pc.AwaitStart? || pc.AwaitCredentials? || pc.AwaitArm? || pc.Triggered? || pc.AwaitApproval? || pc.AwaitConfirmation?
  }

  /** The wait's outcome: a cancel ends the run, anything unexpected is a protocol error. */
  function Receive(pc: Pc, f: ToPy): Pc
    requires Waiting(pc)
  {
    if f == ControlCancel then (if pc == AwaitStart then Exited else Ending(Cancelled))
    else if !Expects(pc, f) then Ending(Failed)
    else
      match f
      case RunStart => Free
      case CredentialsProvide(_) => Free
      case OtpReady(c) => Armed(c)
      case OtpProvide(c) => HaveCode(c)
      case OtpError(c) => Closing(c)
      case OtpExpired(c) => Closing(c)
      case ApprovalApprove(_) => Approved
      case ApprovalCancel(_) => Ending(Cancelled)
      case ConfirmationReady(n) => ReadyToClick(n)
      case ConfirmationError(_) => Ending(Failed)
      case _ => Ending(Failed)
  }

  predicate ProtocolError(pc: Pc, f: ToPy) {
    Waiting(pc) && f != ControlCancel && !Expects(pc, f)
  }

  function Send(p: Program, pc: Pc, f: ToGo): Option<Pc> {
    match f
    case WorkerReady => if pc == Boot then Some(AwaitStart) else None
    case Info(_) => if pc in {Boot, AwaitStart, Exited} then None else Some(pc)
    case CredentialsRequest(r) => if pc == Free then Some(AwaitCredentials(r)) else None
    case OtpPrepare(c) => if pc == Free then Some(AwaitArm(c)) else None
    case OtpTriggered(c) => if pc == Armed(c) then Some(Triggered(c)) else None
    case OtpClosed(c, how) =>
      if how == NotRequired then (if pc == Triggered(c) then Some(Free) else None)
      else if how == Submitted then (if pc == HaveCode(c) then Some(Free) else None)
      else if pc in {AwaitArm(c), Armed(c), Triggered(c), HaveCode(c), Closing(c)} then Some(Free) else None
    case ApprovalRequest(a) => if pc == Free && Manually(p) then Some(AwaitApproval(a)) else None
    case ConfirmationStarting(n) =>
      if pc == Approved || (pc == Free && p.command == Book && p.mode == Auto) then Some(AwaitConfirmation(n)) else None
    case ConfirmationCompleted(n) => if pc == Clicked(n) then Some(Confirmed) else None
    case RunComplete(s) => if pc == Ending(s) then Some(Exited) else None
  }

  /** Once the click may have happened, an exception is reported as an unknown outcome; an interrupt as cancelled. */
  predicate MayReport(pc: Pc, s: JobStatus) {
    match pc
    case Boot => false
    case ReadyToClick(_) => s == OutcomeUnknown || s == Cancelled
    case Clicked(_) => s == OutcomeUnknown || s == Cancelled
    case Ending(_) => false
    case Exited => false
    case _ => s == Failed || s == Cancelled
  }

  function Next(p: Program, pc: Pc, act: Act): Option<Pc> {
    match act
    case Emit(f) => Send(p, pc, f)
    case Take(f) => if Waiting(pc) then Some(Receive(pc, f)) else None
    case Click => if pc.ReadyToClick? then Some(Clicked(pc.id)) else None
    case Raise(s) => if MayReport(pc, s) then Some(Ending(s)) else None
    case Succeed => if pc == Confirmed || (pc == Free && p.command != Book) then Some(Ending(Succeeded)) else None
    case Die => Some(Exited)
  }

  function Run(p: Program, pc: Pc, acts: seq<Act>): Option<Pc>
    decreases |acts|
  {
    if acts == [] then Some(pc)
    else
      var pc' := Next(p, pc, acts[0]);
      if pc'.None? then None else Run(p, pc'.value, acts[1..])
  }

  lemma {:induction false} RunAppend(p: Program, pc: Pc, acts: seq<Act>, act: Act)
    requires Run(p, pc, acts).Some?
    ensures Run(p, pc, acts + [act]) == Next(p, Run(p, pc, acts).value, act)
    decreases |acts|
  {
    if acts == [] {
      assert acts + [act] == [act];
    } else {
      assert (acts + [act])[1..] == acts[1..] + [act];
      RunAppend(p, Next(p, pc, acts[0]).value, acts[1..], act);
    }
  }

  // ---------------------------------------------------------------- what every trace satisfies

  predicate AsksApproval(act: Act) { act.Emit? && act.sent.ApprovalRequest? }
  predicate StartsConfirmation(act: Act) { act.Emit? && act.sent.ConfirmationStarting? }
  predicate Completes(act: Act) { act.Emit? && act.sent.ConfirmationCompleted? }

  function Count(acts: seq<Act>, which: Act -> bool): nat {
    if acts == [] then 0 else (if which(acts[0]) then 1 else 0) + Count(acts[1..], which)
  }

  /** How far towards the click a control point is; no act moves back. */
  function Stage(pc: Pc): nat {
    match pc
    case AwaitApproval(_) => 1
    case Approved => 2
    case AwaitConfirmation(_) => 3
    case ReadyToClick(_) => 4
    case Clicked(_) => 5
    case Confirmed => 6
    case Ending(_) => 7
    case Exited => 8
    case _ => 0
  }

  lemma StagesOnlyRise(p: Program, pc: Pc, act: Act)
    requires Next(p, pc, act).Some?
    ensures var pc' := Next(p, pc, act).value;
            && Stage(pc) <= Stage(pc')
            && (AsksApproval(act) ==> Stage(pc) == 0 && Stage(pc') == 1)
            && (StartsConfirmation(act) ==> Stage(pc) <= 2 && Stage(pc') == 3)
            && (act == Click ==> Stage(pc) == 4 && Stage(pc') == 5)
            && (Completes(act) ==> Stage(pc) == 5 && Stage(pc') == 6)
  {
  }

  /** No run asks for approval, starts a confirmation, clicks or completes more than once. */
  lemma {:induction false} AtMostOnce(p: Program, pc: Pc, acts: seq<Act>)
    requires Run(p, pc, acts).Some?
    ensures Count(acts, AsksApproval) <= (if Stage(pc) < 1 then 1 else 0)
    ensures Count(acts, StartsConfirmation) <= (if Stage(pc) < 3 then 1 else 0)
    ensures Count(acts, a => a == Click) <= (if Stage(pc) < 5 then 1 else 0)
    ensures Count(acts, Completes) <= (if Stage(pc) < 6 then 1 else 0)
    decreases |acts|
  {
    if acts != [] {
      StagesOnlyRise(p, pc, acts[0]);
      AtMostOnce(p, Next(p, pc, acts[0]).value, acts[1..]);
    }
  }

  /** The handshakes a trace contains. */
  ghost predicate Acknowledged(acts: seq<Act>) {
    exists n :: Emit(ConfirmationStarting(n)) in acts && Take(ConfirmationReady(n)) in acts
  }

  ghost predicate ApprovedBy(acts: seq<Act>) {
    exists a :: Emit(ApprovalRequest(a)) in acts && Take(ApprovalApprove(a)) in acts
  }

  ghost predicate Completed(acts: seq<Act>) {
    Click in acts && exists n :: Emit(ConfirmationCompleted(n)) in acts && Take(ConfirmationReady(n)) in acts
  }

  /** What a trace must contain for its control point to be reached. */
  ghost predicate Explained(p: Program, pc: Pc, acts: seq<Act>) {
    && (1 <= Stage(pc) <= 6 ==> p.command == Book)
    && (pc.AwaitApproval? ==> Emit(ApprovalRequest(pc.id)) in acts)
    && (2 <= Stage(pc) <= 6 && p.mode == Manual ==> ApprovedBy(acts))
    && (pc.AwaitConfirmation? ==> Emit(ConfirmationStarting(pc.id)) in acts)
    && (4 <= Stage(pc) <= 6 ==> Acknowledged(acts))
    && (pc.ReadyToClick? || pc.Clicked? ==> Take(ConfirmationReady(pc.id)) in acts)
    && (pc.Clicked? ==> Click in acts)
    && (pc == Confirmed ==> Completed(acts))
    && (pc == Ending(Succeeded) && p.command == Book ==> Completed(acts))
  }

  lemma MoreActs(acts: seq<Act>, act: Act)
    ensures act in acts + [act]
    ensures forall a :: a in acts ==> a in acts + [act]
    ensures Acknowledged(acts) ==> Acknowledged(acts + [act])
    ensures ApprovedBy(acts) ==> ApprovedBy(acts + [act])
    ensures Completed(acts) ==> Completed(acts + [act])
  {
  }

  lemma ExplainTake(p: Program, pc: Pc, acts: seq<Act>, f: ToPy)
    requires Explained(p, pc, acts) && Waiting(pc)
    ensures Explained(p, Receive(pc, f), acts + [Take(f)])
  {
    MoreActs(acts, Take(f));
  }

  lemma ExplainEmit(p: Program, pc: Pc, acts: seq<Act>, f: ToGo)
    requires Explained(p, pc, acts) && Send(p, pc, f).Some?
    ensures Explained(p, Send(p, pc, f).value, acts + [Emit(f)])
  {
    MoreActs(acts, Emit(f));
  }

  lemma ExplainStep(p: Program, pc: Pc, acts: seq<Act>, act: Act)
    requires Explained(p, pc, acts) && Next(p, pc, act).Some?
    ensures Explained(p, Next(p, pc, act).value, acts + [act])
  {
    match act {
      case Take(f) => ExplainTake(p, pc, acts, f);
      case Emit(f) => ExplainEmit(p, pc, acts, f);
      case _ => MoreActs(acts, act);
    }
  }

  lemma {:induction false} EveryTraceIsExplained(p: Program, acts: seq<Act>)
    requires Run(p, Boot, acts).Some?
    ensures Explained(p, Run(p, Boot, acts).value, acts)
    decreases |acts|
  {
    if acts != [] {
      var init, last := acts[..|acts| - 1], acts[|acts| - 1];
      assert acts == init + [last];
      PrefixRuns(p, Boot, init, last);
      EveryTraceIsExplained(p, init);
      RunAppend(p, Boot, init, last);
      ExplainStep(p, Run(p, Boot, init).value, init, last);
    }
  }

  lemma {:induction false} PrefixRuns(p: Program, pc: Pc, acts: seq<Act>, act: Act)
    requires Run(p, pc, acts + [act]).Some?
    ensures Run(p, pc, acts).Some?
    decreases |acts|
  {
    if acts != [] {
      assert (acts + [act])[1..] == acts[1..] + [act];
      PrefixRuns(p, Next(p, pc, acts[0]).value, acts[1..], act);
    }
  }

  lemma {:induction false} EveryPrefixRuns(p: Program, acts: seq<Act>, i: nat)
    requires Run(p, Boot, acts).Some? && i <= |acts|
    ensures Run(p, Boot, acts[..i]).Some?
    decreases |acts| - i
  {
    if i == |acts| {
      assert acts[..i] == acts;
    } else {
      EveryPrefixRuns(p, acts, i + 1);
      assert acts[..i + 1] == acts[..i] + [acts[i]];
      PrefixRuns(p, Boot, acts[..i], acts[i]);
    }
  }

  /** Before a click there is an acknowledged confirmation, and in manual mode a granted approval. */
  lemma ClickIsJustified(p: Program, acts: seq<Act>, i: nat)
    requires Run(p, Boot, acts).Some? && i < |acts| && acts[i] == Click
    ensures p.command == Book && Acknowledged(acts[..i])
    ensures p.mode == Manual ==> ApprovedBy(acts[..i])
  {
    EveryPrefixRuns(p, acts, i);
    EveryPrefixRuns(p, acts, i + 1);
    assert acts[..i + 1] == acts[..i] + [acts[i]];
    RunAppend(p, Boot, acts[..i], Click);
    EveryTraceIsExplained(p, acts[..i]);
  }

  /** A book run reports success only after the click was verified and its completion emitted. */
  lemma BookSuccessIsVerified(p: Program, acts: seq<Act>, i: nat)
    requires Run(p, Boot, acts).Some? && i < |acts| && acts[i] == Emit(RunComplete(Succeeded)) && p.command == Book
    ensures Completed(acts[..i])
  {
    EveryPrefixRuns(p, acts, i);
    EveryPrefixRuns(p, acts, i + 1);
    assert acts[..i + 1] == acts[..i] + [acts[i]];
    RunAppend(p, Boot, acts[..i], acts[i]);
    EveryTraceIsExplained(p, acts[..i]);
  }

  // ---------------------------------------------------------------- what the protocol lets a run do

  /** Where each wait leads: a cancel ends the run, the awaited reply carries it on, and anything else is a protocol error. */
  lemma RepliesAdvance(pc: Pc, f: ToPy)
    requires Waiting(pc)
    ensures var pc' := Receive(pc, f);
            && (f == ControlCancel ==> pc' == if pc == AwaitStart then Exited else Ending(Cancelled))
            && (ProtocolError(pc, f) ==> pc' == Ending(Failed))
            && (pc == AwaitStart && f == RunStart ==> pc' == Free)
            && (pc.AwaitCredentials? && f == CredentialsProvide(pc.id) ==> pc' == Free)
            && (pc.AwaitArm? && f == OtpReady(pc.id) ==> pc' == Armed(pc.id))
            && (pc.Triggered? && f == OtpProvide(pc.id) ==> pc' == HaveCode(pc.id))
            && ((pc.AwaitArm? || pc.Triggered?) && f in {OtpError(pc.id), OtpExpired(pc.id)} ==> pc' == Closing(pc.id))
            && (pc.AwaitApproval? && f == ApprovalApprove(pc.id) ==> pc' == Approved)
            && (pc.AwaitApproval? && f == ApprovalCancel(pc.id) ==> pc' == Ending(Cancelled))
            && (pc.AwaitConfirmation? && f == ConfirmationReady(pc.id) ==> pc' == ReadyToClick(pc.id))
            && (pc.AwaitConfirmation? && f == ConfirmationError(pc.id) ==> pc' == Ending(Failed))
            && (Correlated(pc, f) <==> !ProtocolError(pc, f) && f != ControlCancel)
  {
  }

  /** The reply is of the kind the wait is for, and has its id. */
  predicate Correlated(pc: Pc, f: ToPy) {
    || (pc == AwaitStart && f == RunStart)
    || (pc.AwaitCredentials? && f == CredentialsProvide(pc.id))
    || (pc.AwaitArm? && f in {OtpReady(pc.id), OtpError(pc.id), OtpExpired(pc.id)})
    || (pc.Triggered? && f in {OtpProvide(pc.id), OtpError(pc.id), OtpExpired(pc.id)})
    || (pc.AwaitApproval? && f in {ApprovalApprove(pc.id), ApprovalCancel(pc.id)})
    || (pc.AwaitConfirmation? && f in {ConfirmationReady(pc.id), ConfirmationError(pc.id)})
  }

  lemma {:induction false} RunConcat(p: Program, pc: Pc, a: seq<Act>, b: seq<Act>)
    requires Run(p, pc, a).Some?
    ensures Run(p, pc, a + b) == Run(p, Run(p, pc, a).value, b)
    decreases |a|
  {
    if a == [] {
      assert a + b == b;
    } else {
      assert (a + b)[1..] == a[1..] + b;
      RunConcat(p, Next(p, pc, a[0]).value, a[1..], b);
    }
  }

  lemma TwoActs(p: Program, pc: Pc, a: Act, b: Act)
    requires Next(p, pc, a).Some? && Next(p, Next(p, pc, a).value, b).Some?
    ensures Run(p, pc, [a, b]) == Next(p, Next(p, pc, a).value, b)
  {
    RunAppend(p, pc, [], a);
    RunAppend(p, pc, [a], b);
    assert [] + [a] == [a] && [a] + [b] == [a, b];
  }

  /** The exchanges of a run that signs in with a code, and then books. */
  function Hello(): seq<Act> { [Emit(WorkerReady), Take(RunStart)] }
  function Credentials(r: Id): seq<Act> { [Emit(CredentialsRequest(r)), Take(CredentialsProvide(r))] }
  function Arming(c: Id): seq<Act> { [Emit(OtpPrepare(c)), Take(OtpReady(c))] }
  function Code(c: Id): seq<Act> { [Emit(OtpTriggered(c)), Take(OtpProvide(c))] }
  function Asking(a: Id): seq<Act> { [Emit(ApprovalRequest(a)), Take(ApprovalApprove(a))] }
  function Confirming(n: Id): seq<Act> { [Emit(ConfirmationStarting(n)), Take(ConfirmationReady(n))] }
  function Clicking(n: Id): seq<Act> { [Click, Emit(ConfirmationCompleted(n))] }
  function Reporting(): seq<Act> { [Succeed, Emit(RunComplete(Succeeded))] }

  function SignIn(r: Id, c: Id): seq<Act> { Credentials(r) + (Arming(c) + (Code(c) + [Emit(OtpClosed(c, Submitted))])) }

  lemma SignInRuns(p: Program, r: Id, c: Id)
    ensures Run(p, Free, SignIn(r, c)) == Some(Free)
  {
    TwoActs(p, Free, Credentials(r)[0], Credentials(r)[1]);
    TwoActs(p, Free, Arming(c)[0], Arming(c)[1]);
    TwoActs(p, Armed(c), Code(c)[0], Code(c)[1]);
    assert [Emit(OtpClosed(c, Submitted))][1..] == [];
    RunConcat(p, Armed(c), Code(c), [Emit(OtpClosed(c, Submitted))]);
    RunConcat(p, Free, Arming(c), Code(c) + [Emit(OtpClosed(c, Submitted))]);
    RunConcat(p, Free, Credentials(r), Arming(c) + (Code(c) + [Emit(OtpClosed(c, Submitted))]));
  }

  lemma ConfirmingRuns(p: Program, from: Pc, n: Id)
    requires from == Approved || (from == Free && p.command == Book && p.mode == Auto)
    ensures Run(p, from, Confirming(n) + (Clicking(n) + Reporting())) == Some(Exited)
  {
    TwoActs(p, from, Confirming(n)[0], Confirming(n)[1]);
    TwoActs(p, ReadyToClick(n), Clicking(n)[0], Clicking(n)[1]);
    TwoActs(p, Confirmed, Reporting()[0], Reporting()[1]);
    RunConcat(p, ReadyToClick(n), Clicking(n), Reporting());
    RunConcat(p, from, Confirming(n), Clicking(n) + Reporting());
  }

  lemma BookingRuns(p: Program, a: Id, n: Id)
    requires p.command == Book && p.mode != ModeDryRun
    ensures var asked := if p.mode == Manual then Asking(a) else [];
            Run(p, Free, asked + (Confirming(n) + (Clicking(n) + Reporting()))) == Some(Exited)
  {
    if p.mode == Manual {
      TwoActs(p, Free, Asking(a)[0], Asking(a)[1]);
      ConfirmingRuns(p, Approved, n);
      RunConcat(p, Free, Asking(a), Confirming(n) + (Clicking(n) + Reporting()));
    } else {
      ConfirmingRuns(p, Free, n);
      assert [] + (Confirming(n) + (Clicking(n) + Reporting())) == Confirming(n) + (Clicking(n) + Reporting());
    }
  }

  /** A booking can be made: for every book program and any ids there is a trace that signs in, books and reports success. */
  lemma ABookingCanBeMade(p: Program, r: Id, c: Id, a: Id, n: Id) returns (acts: seq<Act>)
    requires p.command == Book && p.mode != ModeDryRun
    ensures Run(p, Boot, acts) == Some(Exited) && Click in acts && Emit(RunComplete(Succeeded)) in acts
  {
    var asked := if p.mode == Manual then Asking(a) else [];
    var booking := asked + (Confirming(n) + (Clicking(n) + Reporting()));
    TwoActs(p, Boot, Hello()[0], Hello()[1]);
    SignInRuns(p, r, c);
    BookingRuns(p, a, n);
    RunConcat(p, Free, SignIn(r, c), booking);
    RunConcat(p, Boot, Hello(), SignIn(r, c) + booking);
    acts := Hello() + (SignIn(r, c) + booking);
    assert Clicking(n)[0] == Click && Reporting()[1] == Emit(RunComplete(Succeeded));
  }
}
