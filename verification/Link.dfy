/**
 One run as a product machine: the worker, the coordinator, the hub's decision waiter, and the two FIFO channels
 between the processes. Every interleaving of their steps is a run of this machine.
 */
module Link {
  import opened Types
  import opened Frames
  import opened Worker
  import opened Coordinator

  datatype Waiter = NoWaiter | Waiter(decided: bool, buffer: Option<Decision>)

  /** Where an approval wait stands: the goroutine blocked on the hub, or its result queued for the loop. */
  datatype Approval = Idle | Blocked(id: Id) | Answered(id: Id, decision: Option<Decision>)

  datatype Phase = Live | Ended(outcome: Outcome) | Crashed

  datatype Link = Link(
    coord: Coord,
    phase: Phase,
    interrupted: bool,
    waiter: Waiter,
    approval: Approval,
    pc: Pc,
    issued: set<Id>,
    ignored: set<Id>,
    toGo: seq<ToGo>,
    toPy: seq<ToPy>,
    // history
    seen: set<Id>,        // requests the coordinator has handled
    asked: bool,          // it has handled an approval request
    marked: bool,         // the durable marker was written through its hook
    resumed: bool,        // the awaiting-to-running transition succeeded through its hook
    clicks: nat,
    emittedCompletion: bool,
    goFault: bool,
    pyFault: bool)

  function NewLink(p: Program): Link {
    Link(NewCoord(p), Live, false, NoWaiter, Idle, Boot, {}, {}, [], [], {}, false, false, false, 0, false, false, false)
  }

  // ---------------------------------------------------------------- steps

  datatype Step =
    | WorkerEmits(frame: ToGo)
    | WorkerDrops
    | WorkerTakes
    | WorkerClicks
    | WorkerRaises(status: JobStatus)
    | WorkerSucceeds
    | WorkerDies
    | FramesLost(kept: nat)
    | HandlesFrame(answers: Answers)
    | CodeWaitEnds(id: Id, outcome: OtpOutcome)
    | DecisionTaken
    | DecisionAbandoned
    | HandlesApproval(hook: bool)
    | ContextEnds
    | CancelSent
    | RunEnds(exitCode: int)
    | RunAborts
    | HubReceives(decision: Decision)
    | Crash

  /** The id a frame draws for a new exchange. */
  function Draws(f: ToGo): Option<Id> {
    match f
    case CredentialsRequest(id) => Some(id)
    case OtpPrepare(id) => Some(id)
    case ApprovalRequest(id) => Some(id)
    case ConfirmationStarting(id) => Some(id)
    case _ => None
  }

  function Drawn(ids: set<Id>, f: ToGo): set<Id> {
    if Draws(f).Some? then ids + {Draws(f).value} else ids
  }

  predicate Enabled(l: Link, s: Step) {
    match s
    case WorkerEmits(f) => Send(l.coord.program, l.pc, f).Some? && (Draws(f).Some? ==> Draws(f).value !in l.issued)
    case WorkerDrops => Waiting(l.pc) && l.toPy != [] && Ignorable(l.toPy[0], l.ignored)
    case WorkerTakes => Waiting(l.pc) && l.toPy != [] && !Ignorable(l.toPy[0], l.ignored)
    case WorkerClicks => l.pc.ReadyToClick?
    case WorkerRaises(st) => MayReport(l.pc, st)
    case WorkerSucceeds => Next(l.coord.program, l.pc, Succeed).Some?
    case WorkerDies => true
    case FramesLost(kept) => l.pc == Exited && kept <= |l.toGo|
    case HandlesFrame(a) => l.phase == Live && l.toGo != [] && (a.decisionFree <==> l.waiter == NoWaiter)
    case CodeWaitEnds(id, _) => l.phase == Live && id in l.coord.codeWaits
    case DecisionTaken => l.phase == Live && l.approval.Blocked? && l.waiter.Waiter? && l.waiter.buffer.Some?
    case DecisionAbandoned => l.phase == Live && l.approval.Blocked? && l.interrupted
    case HandlesApproval(_) => l.phase == Live && l.approval.Answered?
    case ContextEnds => l.phase == Live
    case CancelSent => l.phase != Crashed && (l.interrupted || l.phase.Ended?)
    case RunEnds(_) => l.phase == Live && l.pc == Exited && l.toGo == []
    case RunAborts => l.phase == Live
    case HubReceives(_) => l.waiter.Waiter? && !l.waiter.decided
    case Crash => true
  }

  function Emitted(l: Link, f: ToGo): Link
    requires Send(l.coord.program, l.pc, f).Some?
  {
    l.(
      pc := Send(l.coord.program, l.pc, f).value,
      toGo := l.toGo + [f],
      issued := Drawn(l.issued, f),
      ignored := if f.OtpClosed? then l.ignored + {f.id} else l.ignored,
      emittedCompletion := l.emittedCompletion || f.ConfirmationCompleted?)
  }

  function Taken(l: Link, f: ToPy): Link
    requires Waiting(l.pc) && l.toPy != []
  {
    l.(pc := Receive(l.pc, f), toPy := l.toPy[1..], pyFault := l.pyFault || ProtocolError(l.pc, f))
  }

  predicate OfWorker(s: Step) {
    s.WorkerEmits? || s == WorkerDrops || s == WorkerTakes || s == WorkerClicks || s.WorkerRaises? || s == WorkerSucceeds ||
    s == WorkerDies || s.FramesLost?
  }

  /** The ensures say what of the history a worker's step can change: an emission and a click. */
  function WorkerDo(l: Link, s: Step): (l': Link)
    requires Enabled(l, s) && OfWorker(s)
    ensures l'.asked == l.asked && l'.marked == l.marked && l'.seen == l.seen && l'.coord == l.coord && l'.resumed == l.resumed
    ensures l'.waiter == l.waiter && l'.approval == l.approval
    ensures l'.clicks == l.clicks + (if s == WorkerClicks then 1 else 0)
    ensures l'.emittedCompletion <==> l.emittedCompletion || (s.WorkerEmits? && s.frame.ConfirmationCompleted?)
  {
    match s
    case WorkerEmits(f) => Emitted(l, f)
    case WorkerDrops => l.(toPy := l.toPy[1..])
    case WorkerTakes => Taken(l, l.toPy[0])
    case WorkerClicks => l.(pc := Clicked(l.pc.id), clicks := l.clicks + 1)
    case WorkerRaises(st) => l.(pc := Ending(st))
    case WorkerSucceeds => l.(pc := Ending(Succeeded))
    case WorkerDies => l.(pc := Exited)
    case FramesLost(kept) => l.(toGo := l.toGo[..kept])
  }

  /** The loop acts on a reaction to the frame at the head of the queue. */
  function Acted(l: Link, f: ToGo, r: Reaction, hook: bool): Link
    requires l.toGo != []
    requires r.call == BeginApprovalCall ==> f.ApprovalRequest?
  {
    var began := r.call == BeginApprovalCall;
    l.(
      coord := r.coord,
      toGo := l.toGo[1..],
      toPy := l.toPy + r.sends,
      seen := Drawn(l.seen, f),
      asked := l.asked || f.ApprovalRequest?,
      marked := l.marked || (r.call == MarkCall && hook),
      waiter := if began then Waiter(false, None) else l.waiter,
      approval := if began && r.verdict == Continue then Blocked(f.id) else l.approval,
      goFault := l.goFault || r.verdict == ProtocolFault,
      phase := if r.verdict == Continue then l.phase else Ended(Deferred(RunError, r.coord.completed)))
  }

  function Handled(l: Link, a: Answers): Link
    requires l.toGo != []
  {
    Acted(l, l.toGo[0], React(l.coord, l.toGo[0], a), a.hook)
  }

  /** The hub's CancelJob answers an undecided waiter. */
  function CancelWaiter(w: Waiter): Waiter {
    if w.Waiter? && !w.decided then Waiter(true, Some(Decline)) else w
  }

  /** The loop acts on the result of the approval wait. */
  function Resolved(l: Link, hook: bool): (l': Link)
    requires l.approval.Answered?
    ensures l' == l.(approval := Idle, resumed := l'.resumed, toPy := l'.toPy, phase := l'.phase)
    ensures l'.resumed <==> l.resumed || (hook && l.approval.decision == Some(Approve))
  {
    if l.approval.decision != Some(Approve) then l.(approval := Idle, toPy := l.toPy + [ApprovalCancel(l.approval.id)])
    else if hook then l.(approval := Idle, resumed := true, toPy := l.toPy + [ApprovalApprove(l.approval.id)])
    else l.(approval := Idle, phase := Ended(Deferred(RunError, l.coord.completed)))
  }

  /** And what a step of the control plane can, besides handling a frame: an approval. */
  function ControlDo(l: Link, s: Step): (l': Link)
    requires Enabled(l, s) && !OfWorker(s)
    ensures !s.HandlesFrame? ==>
              && l'.asked == l.asked && l'.marked == l.marked && l'.seen == l.seen && (!s.CodeWaitEnds? ==> l'.coord == l.coord)
              && (l'.resumed <==> l.resumed || (s == HandlesApproval(true) && l.approval.decision == Some(Approve)))
              && l'.clicks == l.clicks && l'.emittedCompletion == l.emittedCompletion && l'.pc == l.pc
  {
    match s
    case HandlesFrame(a) => Handled(l, a)
    case CodeWaitEnds(id, o) =>
      var (c, sends) := DeliverCode(l.coord, id, o);
      l.(coord := c, toPy := l.toPy + sends)
    case DecisionTaken => l.(approval := Answered(l.approval.id, l.waiter.buffer), waiter := NoWaiter)
    case DecisionAbandoned => l.(approval := Answered(l.approval.id, None), waiter := NoWaiter)
    case HandlesApproval(hook) => Resolved(l, hook)
    case ContextEnds => l.(interrupted := true, waiter := CancelWaiter(l.waiter))
    case CancelSent => l.(toPy := l.toPy + [ControlCancel])
    case RunEnds(code) =>
      var report := if l.coord.terminal.Some? then Some(RunResult(l.coord.terminal.value, NoMessage, 0)) else None;
      l.(phase := Ended(Deferred(Returned(FinishRun(report, l.coord.started.Some?, l.interrupted, code)), l.coord.completed)))
    case RunAborts => l.(phase := Ended(Deferred(RunError, l.coord.completed)))
    case HubReceives(d) => l.(waiter := Waiter(true, Some(d)))
    case Crash => l.(phase := Crashed, waiter := NoWaiter, approval := Idle)
  }

  function Do(l: Link, s: Step): (l': Link)
    requires Enabled(l, s)
  {
    if OfWorker(s) then WorkerDo(l, s) else ControlDo(l, s)
  }

  // ---------------------------------------------------------------- what the queue of requests will do

  /** What the coordinator's future reactions depend on. */
  datatype View = View(ready: bool, used: set<Id>, armed: set<Id>, asked: bool, started: Option<Id>)

  function ArmedIn(challenges: map<Id, bool>): set<Id> {
    set c | c in challenges && !challenges[c]
  }

  function CoordView(c: Coord, seen: set<Id>, asked: bool): View {
    View(c.ready, seen, ArmedIn(c.challenges), asked, c.started)
  }

  function ViewOf(l: Link): View { CoordView(l.coord, l.seen, l.asked) }

  /** Handling the frame raises no protocol error. */
  predicate Legal(p: Program, v: View, f: ToGo) {
    if f == WorkerReady then !v.ready
    else
      && v.ready
      && (Draws(f).Some? ==> Draws(f).value !in v.used)
      && (f.OtpTriggered? ==> f.id in v.armed && f.id in v.used)
      && (f.ApprovalRequest? ==> Manually(p) && !v.asked)
      && (f.ConfirmationStarting? ==> v.started.None?)
      && (f.ConfirmationCompleted? ==> v.started == Some(f.id))
      && (f.RunComplete? ==> Reportable(f.status))
  }

  function Advance(v: View, f: ToGo): View {
    var v' := v.(used := Drawn(v.used, f));
    match f
    case WorkerReady => v'.(ready := true)
    case OtpTriggered(c) => v'.(armed := v'.armed - {c})
    case OtpClosed(c, _) => v'.(armed := v'.armed - {c})
    case ApprovalRequest(_) => v'.(asked := true)
    case ConfirmationStarting(n) => v'.(started := Some(n))
    case _ => v'
  }

  predicate AllLegal(p: Program, v: View, q: seq<ToGo>)
    decreases |q|
  {
    q == [] || (Legal(p, v, q[0]) && AllLegal(p, Advance(v, q[0]), q[1..]))
  }

  function After(v: View, q: seq<ToGo>): View
    decreases |q|
  {
    if q == [] then v else After(Advance(v, q[0]), q[1..])
  }

  lemma {:induction false} QueueAppend(p: Program, v: View, q: seq<ToGo>, f: ToGo)
    ensures AllLegal(p, v, q + [f]) <==> AllLegal(p, v, q) && Legal(p, After(v, q), f)
    ensures After(v, q + [f]) == Advance(After(v, q), f)
    decreases |q|
  {
    if q == [] {
      assert q + [f] == [f];
    } else {
      assert (q + [f])[1..] == q[1..] + [f];
      QueueAppend(p, Advance(v, q[0]), q[1..], f);
    }
  }

  lemma {:induction false} QueuePrefix(p: Program, v: View, q: seq<ToGo>, n: nat)
    requires AllLegal(p, v, q) && n <= |q|
    ensures AllLegal(p, v, q[..n])
    decreases n
  {
    if n > 0 {
      assert q[..n][1..] == q[1..][..n - 1];
      QueuePrefix(p, Advance(v, q[0]), q[1..], n - 1);
    }
  }

  /** An id already used is not drawn again by a queued frame, nor triggered unless it is armed. */
  lemma {:induction false} UsedIdsStayOut(p: Program, v: View, q: seq<ToGo>, id: Id)
    requires AllLegal(p, v, q) && id in v.used
    ensures forall f :: f in q && Draws(f).Some? ==> Draws(f).value != id
    ensures id !in v.armed ==> OtpTriggered(id) !in q
    ensures id in After(v, q).used
    decreases |q|
  {
    if q != [] {
      UsedIdsStayOut(p, Advance(v, q[0]), q[1..], id);
      assert q == [q[0]] + q[1..];
    }
  }

  /** Arming one more used challenge keeps the queue legal; it stays armed unless a queued frame closes it. */
  lemma {:induction false} ArmOneMore(p: Program, v: View, q: seq<ToGo>, c: Id)
    requires AllLegal(p, v, q) && c in v.used && c !in v.armed
    ensures var v' := v.(armed := v.armed + {c});
            && AllLegal(p, v', q)
            && After(v', q).(armed := {}) == After(v, q).(armed := {})
            && After(v, q).armed <= After(v', q).armed
            && ((forall how :: OtpClosed(c, how) !in q) ==> c in After(v', q).armed)
    decreases |q|
  {
    if q != [] {
      var v' := v.(armed := v.armed + {c});
      var next := Advance(v, q[0]);
      assert q == [q[0]] + q[1..];
      if q[0].OtpClosed? && q[0].id == c {
        assert Advance(v', q[0]) == next;
        assert After(v, q).armed <= After(v', q).armed;
      } else {
        assert Advance(v', q[0]) == next.(armed := next.armed + {c});
        ArmOneMore(p, next, q[1..], c);
      }
    }
  }

  // ---------------------------------------------------------------- replies: owed, or on the way

  datatype Debt = DStart | DCredentials(id: Id) | DArm(id: Id) | DCode(id: Id) | DApproval(id: Id) | DConfirmation(id: Id)

  function DebtOf(f: ToGo): Option<Debt> {
    match f
    case WorkerReady => Some(DStart)
    case CredentialsRequest(id) => Some(DCredentials(id))
    case OtpPrepare(id) => Some(DArm(id))
    case OtpTriggered(id) => Some(DCode(id))
    case ApprovalRequest(id) => Some(DApproval(id))
    case ConfirmationStarting(id) => Some(DConfirmation(id))
    case _ => None
  }

  /** The reply the worker's current wait is for. */
  function Current(pc: Pc): Option<Debt> {
    match pc
    case AwaitStart => Some(DStart)
    case AwaitCredentials(id) => Some(DCredentials(id))
    case AwaitArm(id) => Some(DArm(id))
    case Triggered(id) => Some(DCode(id))
    case AwaitApproval(id) => Some(DApproval(id))
    case AwaitConfirmation(id) => Some(DConfirmation(id))
    case _ => None
  }

  ghost predicate Owes(l: Link, d: Debt) {
    l.phase == Live &&
    ( || (exists f :: f in l.toGo && DebtOf(f) == Some(d))
      || (d.DCode? && d.id in l.coord.codeWaits && d.id in l.coord.challenges)
      || (d.DApproval? && l.approval.Blocked? && l.approval.id == d.id)
      || (d.DApproval? && l.approval.Answered? && l.approval.id == d.id))
  }

  predicate Forgiven(d: Debt, ignored: set<Id>) {
    (d.DArm? || d.DCode?) && d.id in ignored
  }

  /** The replies on their way that the worker will look at. */
  function Replies(q: seq<ToPy>, ignored: set<Id>): seq<ToPy> {
    if q == [] then []
    else (if q[0] == ControlCancel || Ignorable(q[0], ignored) then [] else [q[0]]) + Replies(q[1..], ignored)
  }

  lemma {:induction false} RepliesAppend(a: seq<ToPy>, b: seq<ToPy>, ignored: set<Id>)
    ensures Replies(a + b, ignored) == Replies(a, ignored) + Replies(b, ignored)
    decreases |a|
  {
    if a == [] {
      assert a + b == b;
    } else {
      assert (a + b)[1..] == a[1..] + b && (a + b)[0] == a[0];
      RepliesAppend(a[1..], b, ignored);
      var head := if a[0] == ControlCancel || Ignorable(a[0], ignored) then [] else [a[0]];
      var x, y := Replies(a[1..], ignored), Replies(b, ignored);
      assert Replies(a + b, ignored) == head + (x + y) && Replies(a, ignored) == head + x;
      assert head + (x + y) == (head + x) + y;
    }
  }

  /** Closing a challenge drops its replies and no others. */
  lemma {:induction false} RepliesIgnore(q: seq<ToPy>, ignored: set<Id>, c: Id)
    ensures |Replies(q, ignored + {c})| <= |Replies(q, ignored)|
    ensures (forall f :: f in Replies(q, ignored) ==> Ignorable(f, {c})) ==> Replies(q, ignored + {c}) == []
    decreases |q|
  {
    if q != [] {
      RepliesIgnore(q[1..], ignored, c);
      assert forall f :: f in Replies(q[1..], ignored) ==> f in Replies(q, ignored);
      if q[0] != ControlCancel && !Ignorable(q[0], ignored) {
        assert Replies(q, ignored)[0] == q[0];
        assert q[0] in Replies(q, ignored);
      }
    }
  }

  // ---------------------------------------------------------------- the invariant

  /** The worker can still act on what it receives. */
  predicate Engaged(pc: Pc) { !pc.Ending? && !pc.Exited? }

  /** The coordinator's own bookkeeping. */
  predicate ChallengesSeen(c: Coord, seen: set<Id>) {
    && (forall id :: id in c.challenges ==> id in seen)
    && (forall id :: id in c.codeWaits ==> id in seen && id !in ArmedIn(c.challenges))
  }

  predicate Books(l: Link) {
    && ChallengesSeen(l.coord, l.seen)
    && (!l.asked ==> l.waiter == NoWaiter && l.approval == Idle)
    && (l.approval != Idle ==> l.approval.id in l.seen)
  }

  /** The worker's control point agrees with what the coordinator will know once the queue is handled. */
  predicate Agrees(pc: Pc, v: View, issued: set<Id>) {
    && (pc == Boot <==> !v.ready)
    && v.used <= issued
    && (pc.Armed? ==> pc.id in v.armed && pc.id in v.used)
    && (v.asked ==> Stage(pc) >= 1)
    && (v.started.Some? ==> Stage(pc) >= 3)
    && (pc.AwaitConfirmation? || pc.ReadyToClick? || pc.Clicked? ==> v.started == Some(pc.id))
    && (pc.Ending? ==> Reportable(pc.status))
  }

  /** Every queued request will be accepted. */
  predicate Accepted(p: Program, pc: Pc, issued: set<Id>, v: View, q: seq<ToGo>) {
    AllLegal(p, v, q) && (pc != Exited ==> Agrees(pc, After(v, q), issued))
  }

  predicate Queue(l: Link) {
    l.phase == Live ==> Accepted(l.coord.program, l.pc, l.issued, ViewOf(l), l.toGo)
  }

  /** Every reply owed is the one being waited for, or belongs to a closed challenge. */
  ghost predicate Owed(l: Link) {
    Engaged(l.pc) ==>
      && (forall d :: Owes(l, d) ==> Current(l.pc) == Some(d) || Forgiven(d, l.ignored))
      && (forall f :: f in l.toGo && f.OtpClosed? ==> f.id in l.ignored)
  }

  /** The reply the worker will see next is the awaited one, and then nothing more is owed for it. */
  ghost predicate Answering(l: Link, f: ToPy) {
    && Current(l.pc).Some?
    && Expects(l.pc, f)
    && !Owes(l, Current(l.pc).value)
    && (l.phase == Live && f.OtpReady? ==> var v := After(ViewOf(l), l.toGo); f.id in v.armed && f.id in v.used)
  }

  /** At most one reply is on its way. */
  ghost predicate InFlight(l: Link) {
    var replies := Replies(l.toPy, l.ignored);
    Engaged(l.pc) ==> |replies| <= 1 && (|replies| == 1 ==> Answering(l, replies[0]))
  }

  /** What has happened by each point on the way to the click. */
  ghost predicate History(l: Link) {
    && (l.coord.started.Some? || 4 <= Stage(l.pc) <= 6 || l.clicks > 0 ==> l.marked)
    && (forall n :: ConfirmationReady(n) in l.toPy ==> l.marked)
    && l.clicks <= 1
    && (1 <= Stage(l.pc) <= 6 || l.clicks > 0 ==> l.coord.program.command == Book)
    && (Stage(l.pc) <= 4 ==> l.clicks == 0)
    && (forall a :: ApprovalApprove(a) in l.toPy ==> l.resumed)
    && (Manually(l.coord.program) && (2 <= Stage(l.pc) <= 6 || l.clicks > 0) ==> l.resumed)
  }

  /** What has happened by each point at which an outcome is reported. */
  ghost predicate Reports(l: Link) {
    && (l.pc.Clicked? || l.pc == Confirmed || l.emittedCompletion ==> l.clicks == 1)
    && (l.pc == Confirmed ==> l.emittedCompletion)
    && (l.coord.completed ==> l.emittedCompletion)
    && (forall n :: ConfirmationCompleted(n) in l.toGo ==> l.emittedCompletion)
    && (l.pc.Ending? ==> Reported(l, l.pc.status))
    && (forall s :: RunComplete(s) in l.toGo ==> Reported(l, s))
    && (l.coord.terminal.Some? ==> Reported(l, l.coord.terminal.value))
    && (l.phase.Ended? && l.phase.outcome.Returned? ==> Reported(l, l.phase.outcome.result.status))
  }

  /** A booking's success was confirmed by the page, and an unknown outcome follows the durable marker. */
  predicate Reported(l: Link, s: JobStatus) {
    && Terminal(s)
    && (s == Succeeded && l.coord.program.command == Book ==> l.emittedCompletion)
    && (s == OutcomeUnknown ==> l.marked)
  }

  // ---------------------------------------------------------------- the worker's steps

  lemma WhatIsSentIsLegal(p: Program, pc: Pc, v: View, issued: set<Id>, f: ToGo)
    requires Agrees(pc, v, issued) && Send(p, pc, f).Some? && (Draws(f).Some? ==> Draws(f).value !in issued)
    ensures Legal(p, v, f)
    ensures Send(p, pc, f).value != Exited ==> Agrees(Send(p, pc, f).value, Advance(v, f), Drawn(issued, f))
  {
  }

  lemma SendKeepsAccepted(p: Program, pc: Pc, issued: set<Id>, v: View, q: seq<ToGo>, f: ToGo)
    requires Accepted(p, pc, issued, v, q) && Send(p, pc, f).Some? && (Draws(f).Some? ==> Draws(f).value !in issued)
    ensures Accepted(p, Send(p, pc, f).value, Drawn(issued, f), v, q + [f])
  {
    WhatIsSentIsLegal(p, pc, After(v, q), issued, f);
    QueueAppend(p, v, q, f);
  }

  lemma EmitOwes(l: Link, f: ToGo, d: Debt)
    requires Enabled(l, WorkerEmits(f))
    ensures Owes(Emitted(l, f), d) ==> Owes(l, d) || DebtOf(f) == Some(d)
  {
  }

  /** A request is sent only where no reply is awaited, and then its own reply is. */
  lemma RequestsOpenAWait(p: Program, pc: Pc, f: ToGo)
    requires Send(p, pc, f).Some?
    ensures DebtOf(f).Some? ==> Current(pc).None? && Current(Send(p, pc, f).value) == DebtOf(f)
    ensures DebtOf(f).None? && !f.OtpClosed? && Engaged(Send(p, pc, f).value) ==>
              Current(Send(p, pc, f).value) == Current(pc) && (f.Info? || Current(pc).None?)
    ensures f.OtpClosed? && Current(pc).Some? ==> Forgiven(Current(pc).value, {f.id}) && forall r :: Expects(pc, r) ==> Ignorable(r, {f.id})
  {
  }

  lemma EmitKeepsOwed(l: Link, f: ToGo)
    requires Owed(l) && Enabled(l, WorkerEmits(f))
    ensures Owed(Emitted(l, f))
  {
    var l' := Emitted(l, f);
    if Engaged(l'.pc) {
      RequestsOpenAWait(l.coord.program, l.pc, f);
      forall d | Owes(l', d) ensures Current(l'.pc) == Some(d) || Forgiven(d, l'.ignored) {
        EmitOwes(l, f, d);
      }
    }
  }

  lemma EmitKeepsInFlight(l: Link, f: ToGo)
    requires InFlight(l) && Enabled(l, WorkerEmits(f))
    ensures InFlight(Emitted(l, f))
  {
    var l' := Emitted(l, f);
    if Engaged(l'.pc) {
      RequestsOpenAWait(l.coord.program, l.pc, f);
      if f.OtpClosed? {
        RepliesIgnore(l.toPy, l.ignored, f.id);
      } else if Current(l.pc).Some? {
        EmitOwes(l, f, Current(l.pc).value);
        QueueAppend(l.coord.program, ViewOf(l), l.toGo, f);
        assert ViewOf(l') == ViewOf(l);
      }
    }
  }

  lemma TakeKeepsInFlight(l: Link)
    requires Queue(l) && Owed(l) && InFlight(l) && !l.pyFault && Enabled(l, WorkerTakes)
    ensures var l' := WorkerDo(l, WorkerTakes); Owed(l') && InFlight(l') && Queue(l') && !l'.pyFault
  {
    var l' := WorkerDo(l, WorkerTakes);
    assert ViewOf(l') == ViewOf(l);
    forall d ensures Owes(l', d) == Owes(l, d) {
    }
    assert Replies(l.toPy, l.ignored) == (if l.toPy[0] == ControlCancel then [] else [l.toPy[0]]) + Replies(l.toPy[1..], l.ignored);
  }

  lemma DropKeepsInFlight(l: Link)
    requires Queue(l) && Owed(l) && InFlight(l) && Enabled(l, WorkerDrops)
    ensures var l' := WorkerDo(l, WorkerDrops); Queue(l') && Owed(l') && InFlight(l')
  {
    var l' := WorkerDo(l, WorkerDrops);
    forall d ensures Owes(l', d) == Owes(l, d) {
    }
  }

  lemma LossKeepsQueue(l: Link, kept: nat)
    requires Queue(l) && Enabled(l, FramesLost(kept))
    ensures Queue(WorkerDo(l, FramesLost(kept)))
  {
    if l.phase == Live {
      QueuePrefix(l.coord.program, ViewOf(l), l.toGo, kept);
    }
  }

  /** Steps of the worker that touch no channel. */
  lemma QuietWorkerKeeps(l: Link, pc: Pc)
    requires Queue(l) && Owed(l) && InFlight(l)
    requires pc.Exited? || (pc.Ending? && Reportable(pc.status) && l.pc != Boot && l.pc != Exited) || (l.pc.ReadyToClick? && pc == Clicked(l.pc.id))
    ensures Queue(l.(pc := pc)) && Owed(l.(pc := pc)) && InFlight(l.(pc := pc))
  {
    var l' := l.(pc := pc);
    forall d ensures Owes(l', d) == Owes(l, d) {
    }
  }

  // ---------------------------------------------------------------- the coordinator's steps

  /** A legal frame is not a protocol error, and moves the view as the queue predicted; it may also arm a challenge. */
  lemma LegalFramesAreAccepted(c: Coord, seen: set<Id>, asked: bool, f: ToGo, a: Answers)
    requires ChallengesSeen(c, seen) && Legal(c.program, CoordView(c, seen, asked), f) && (!asked ==> a.decisionFree)
    ensures React(c, f, a).verdict != ProtocolFault && React(c, f, a).coord.program == c.program
    ensures var r := React(c, f, a); var v := Advance(CoordView(c, seen, asked), f);
            r.verdict == Continue ==>
              CoordView(r.coord, Drawn(seen, f), asked || f.ApprovalRequest?) ==
                if f.OtpPrepare? && a.armed then v.(armed := v.armed + {f.id}) else v
  {
    var r := React(c, f, a);
    var v := Advance(CoordView(c, seen, asked), f);
    if r.verdict == Continue {
      assert ArmedIn(r.coord.challenges) == if f.OtpPrepare? && a.armed then v.armed + {f.id} else v.armed;
    }
  }

  lemma ReactKeepsChallenges(c: Coord, seen: set<Id>, f: ToGo, a: Answers)
    requires ChallengesSeen(c, seen)
    requires f.OtpPrepare? ==> f.id !in seen
    ensures ChallengesSeen(React(c, f, a).coord, Drawn(seen, f))
  {
  }

  lemma HandlingKeepsAccepted(c: Coord, seen: set<Id>, asked: bool, pc: Pc, issued: set<Id>, q: seq<ToGo>, a: Answers)
    requires ChallengesSeen(c, seen) && Accepted(c.program, pc, issued, CoordView(c, seen, asked), q)
    requires q != [] && (!asked ==> a.decisionFree) && React(c, q[0], a).verdict == Continue
    ensures var c' := React(c, q[0], a).coord;
            Accepted(c.program, pc, issued, CoordView(c', Drawn(seen, q[0]), asked || q[0].ApprovalRequest?), q[1..])
  {
    LegalFramesAreAccepted(c, seen, asked, q[0], a);
    if q[0].OtpPrepare? && a.armed {
      ArmOneMore(c.program, Advance(CoordView(c, seen, asked), q[0]), q[1..], q[0].id);
    }
  }

  lemma HandleKeepsBooks(l: Link, f: ToGo, r: Reaction, hook: bool)
    requires Books(l) && l.toGo != [] && r.verdict != ProtocolFault && ChallengesSeen(r.coord, Drawn(l.seen, f))
    requires r.call == BeginApprovalCall ==> f.ApprovalRequest?
    ensures Books(Acted(l, f, r, hook)) && Acted(l, f, r, hook).goFault == l.goFault
  {
  }

  lemma ActKeepsQueue(l: Link, f: ToGo, r: Reaction, hook: bool)
    requires l.toGo != [] && l.phase == Live && (r.call == BeginApprovalCall ==> f.ApprovalRequest?)
    requires r.verdict == Continue ==>
               Accepted(r.coord.program, l.pc, l.issued, CoordView(r.coord, Drawn(l.seen, f), l.asked || f.ApprovalRequest?), l.toGo[1..])
    ensures Queue(Acted(l, f, r, hook))
  {
  }

  lemma HandleKeepsQueue(l: Link, a: Answers)
    requires Books(l) && Queue(l) && l.phase == Live && l.toGo != [] && (a.decisionFree <==> l.waiter == NoWaiter)
    ensures Queue(Handled(l, a))
  {
    LegalFramesAreAccepted(l.coord, l.seen, l.asked, l.toGo[0], a);
    if React(l.coord, l.toGo[0], a).verdict == Continue {
      HandlingKeepsAccepted(l.coord, l.seen, l.asked, l.pc, l.issued, l.toGo, a);
    }
    ActKeepsQueue(l, l.toGo[0], React(l.coord, l.toGo[0], a), a.hook);
  }

  lemma HandleAccepts(l: Link, a: Answers)
    requires Books(l) && Queue(l) && l.phase == Live && l.toGo != [] && (a.decisionFree <==> l.waiter == NoWaiter)
    ensures Books(Handled(l, a)) && Handled(l, a).goFault == l.goFault
  {
    LegalFramesAreAccepted(l.coord, l.seen, l.asked, l.toGo[0], a);
    ReactKeepsChallenges(l.coord, l.seen, l.toGo[0], a);
    HandleKeepsBooks(l, l.toGo[0], React(l.coord, l.toGo[0], a), a.hook);
  }

  // ---------------------------------------------------------------- what handling a frame settles

  lemma {:induction false} ReadyOnce(p: Program, v: View, q: seq<ToGo>)
    requires AllLegal(p, v, q) && v.ready
    ensures WorkerReady !in q
    decreases |q|
  {
    if q != [] {
      ReadyOnce(p, Advance(v, q[0]), q[1..]);
      assert q == [q[0]] + q[1..];
    }
  }

  /** A request's debt is not raised again by a later frame. */
  lemma DebtsAreDistinct(p: Program, v: View, q: seq<ToGo>, d: Debt)
    requires q != [] && AllLegal(p, v, q) && DebtOf(q[0]) == Some(d)
    ensures forall f :: f in q[1..] ==> DebtOf(f) != Some(d)
  {
    var v' := Advance(v, q[0]);
    if q[0] == WorkerReady {
      ReadyOnce(p, v', q[1..]);
    } else {
      UsedIdsStayOut(p, v', q[1..], d.id);
    }
  }

  lemma ActOwes(l: Link, f: ToGo, r: Reaction, hook: bool, d: Debt)
    requires l.toGo != [] && l.toGo[0] == f && l.phase == Live && (r.call == BeginApprovalCall ==> f.ApprovalRequest?)
    requires forall c :: c in r.coord.codeWaits && c in r.coord.challenges ==>
               OtpTriggered(c) == f || (c in l.coord.codeWaits && c in l.coord.challenges)
    requires Owes(Acted(l, f, r, hook), d)
    ensures Owes(l, d)
  {
    assert l.toGo == [f] + l.toGo[1..];
    assert f in l.toGo;
  }

  /** The reply, if any, that handling a frame sends answers that frame's own request. */
  predicate Settles(f: ToGo, sends: seq<ToPy>, armed: bool) {
    sends != [] ==>
      && |sends| == 1 && DebtOf(f).Some?
      && !f.OtpTriggered? && !f.ApprovalRequest?
      && sends[0] != ControlCancel
      && (IsOtp(sends[0]) <==> f.OtpPrepare?)
      && (f.OtpPrepare? ==> sends[0].id == f.id)
      && (sends[0].OtpReady? ==> armed)
  }

  lemma SettlingIsExpected(f: ToGo, c: Coord, a: Answers, pc: Pc)
    requires React(c, f, a).sends != [] && Current(pc) == DebtOf(f)
    ensures |React(c, f, a).sends| == 1 && DebtOf(f).Some? && Expects(pc, React(c, f, a).sends[0])
  {
  }

  lemma ReactSettles(c: Coord, seen: set<Id>, f: ToGo, a: Answers)
    requires ChallengesSeen(c, seen) && (f.OtpPrepare? ==> f.id !in seen)
    ensures var r := React(c, f, a);
            && Settles(f, r.sends, a.armed)
            && (r.call == BeginApprovalCall ==> f.ApprovalRequest?)
            && (forall id :: id in r.coord.codeWaits && id in r.coord.challenges ==>
                  OtpTriggered(id) == f || (id in c.codeWaits && id in c.challenges))
  {
  }

  lemma HandleKeepsOwed(l: Link, a: Answers)
    requires Books(l) && Queue(l) && Owed(l) && l.phase == Live && l.toGo != []
    ensures Owed(Handled(l, a))
  {
    var f, r := l.toGo[0], React(l.coord, l.toGo[0], a);
    ReactSettles(l.coord, l.seen, f, a);
    var l' := Acted(l, f, r, a.hook);
    if Engaged(l.pc) {
      forall d | Owes(l', d) ensures Owes(l, d) {
        ActOwes(l, f, r, a.hook, d);
      }
      assert l.toGo == [f] + l.toGo[1..];
    }
  }

  /** Once the reply to a request is sent, nothing more is owed for it. */
  lemma SettledIsNotOwed(l: Link, f: ToGo, r: Reaction, hook: bool, armed: bool)
    requires Books(l) && Queue(l) && l.phase == Live && l.toGo != [] && l.toGo[0] == f
    requires r.call == BeginApprovalCall ==> f.ApprovalRequest?
    requires Settles(f, r.sends, armed) && r.sends != []
    ensures !Owes(Acted(l, f, r, hook), DebtOf(f).value)
  {
    DebtsAreDistinct(l.coord.program, ViewOf(l), l.toGo, DebtOf(f).value);
  }

  lemma HandleKeepsInFlight(l: Link, a: Answers)
    requires Books(l) && Queue(l) && Owed(l) && InFlight(l) && l.phase == Live && l.toGo != []
    requires a.decisionFree <==> l.waiter == NoWaiter
    ensures InFlight(Handled(l, a))
  {
    var f, r := l.toGo[0], React(l.coord, l.toGo[0], a);
    ReactSettles(l.coord, l.seen, f, a);
    LegalFramesAreAccepted(l.coord, l.seen, l.asked, f, a);
    if Engaged(l.pc) {
      if r.sends != [] && Current(l.pc) == DebtOf(f) {
        SettlingIsExpected(f, l.coord, a, l.pc);
      }
      ActKeepsInFlight(l, f, r, a.hook, a.armed);
    }
  }

  lemma ActKeepsInFlight(l: Link, f: ToGo, r: Reaction, hook: bool, armed: bool)
    requires Books(l) && Queue(l) && Owed(l) && InFlight(l) && l.phase == Live && l.toGo != [] && l.toGo[0] == f && Engaged(l.pc)
    requires r.call == BeginApprovalCall ==> f.ApprovalRequest?
    requires forall c :: c in r.coord.codeWaits && c in r.coord.challenges ==>
               OtpTriggered(c) == f || (c in l.coord.codeWaits && c in l.coord.challenges)
    requires Settles(f, r.sends, armed) && Moved(l, f, r, armed)
    requires f.OtpPrepare? && r.verdict == Continue ==> r.sends != []
    requires r.sends != [] && Current(l.pc) == DebtOf(f) ==> Expects(l.pc, r.sends[0])
    ensures InFlight(Acted(l, f, r, hook))
  {
    if r.sends == [] {
      UnansweredKeepsInFlight(l, f, r, hook);
    } else {
      AnsweredKeepsInFlight(l, f, r, hook, armed);
    }
  }

  lemma UnansweredKeepsInFlight(l: Link, f: ToGo, r: Reaction, hook: bool)
    requires InFlight(l) && l.phase == Live && l.toGo != [] && l.toGo[0] == f && Engaged(l.pc)
    requires r.call == BeginApprovalCall ==> f.ApprovalRequest?
    requires forall c :: c in r.coord.codeWaits && c in r.coord.challenges ==>
               OtpTriggered(c) == f || (c in l.coord.codeWaits && c in l.coord.challenges)
    requires r.verdict == Continue ==> CoordView(r.coord, Drawn(l.seen, f), l.asked || f.ApprovalRequest?) == Advance(ViewOf(l), f)
    requires r.sends == []
    ensures InFlight(Acted(l, f, r, hook))
  {
    var l' := Acted(l, f, r, hook);
    assert l'.toPy == l.toPy;
    var replies := Replies(l.toPy, l.ignored);
    if |replies| == 1 {
      if Owes(l', Current(l.pc).value) {
        ActOwes(l, f, r, hook, Current(l.pc).value);
      }
    }
  }

  /** A challenge just armed is still armed once the queue is handled, unless the worker has closed it. */
  lemma ArmedStaysArmed(l: Link, f: ToGo, v: View)
    requires Books(l) && Queue(l) && l.phase == Live && l.toGo != [] && l.toGo[0] == f && f.OtpPrepare?
    requires v == Advance(ViewOf(l), f).(armed := Advance(ViewOf(l), f).armed + {f.id})
    ensures After(ViewOf(l), l.toGo).armed <= After(v, l.toGo[1..]).armed
    ensures After(ViewOf(l), l.toGo).used == After(v, l.toGo[1..]).used
    ensures (forall how :: OtpClosed(f.id, how) !in l.toGo) ==> f.id in After(v, l.toGo[1..]).armed && f.id in After(v, l.toGo[1..]).used
  {
    ArmOneMore(l.coord.program, Advance(ViewOf(l), f), l.toGo[1..], f.id);
    UsedIdsStayOut(l.coord.program, Advance(ViewOf(l), f), l.toGo[1..], f.id);
  }

  predicate Moved(l: Link, f: ToGo, r: Reaction, armed: bool) {
    var v := Advance(ViewOf(l), f);
    r.verdict == Continue ==>
      CoordView(r.coord, Drawn(l.seen, f), l.asked || f.ApprovalRequest?) ==
        if f.OtpPrepare? && armed then v.(armed := v.armed + {f.id}) else v
  }

  lemma AnsweredKeepsInFlight(l: Link, f: ToGo, r: Reaction, hook: bool, armed: bool)
    requires Books(l) && Queue(l) && Owed(l) && InFlight(l) && l.phase == Live && l.toGo != [] && l.toGo[0] == f && Engaged(l.pc)
    requires r.call == BeginApprovalCall ==> f.ApprovalRequest?
    requires forall c :: c in r.coord.codeWaits && c in r.coord.challenges ==>
               OtpTriggered(c) == f || (c in l.coord.codeWaits && c in l.coord.challenges)
    requires Settles(f, r.sends, armed) && r.sends != [] && Moved(l, f, r, armed)
    requires Current(l.pc) == DebtOf(f) ==> Expects(l.pc, r.sends[0])
    ensures InFlight(Acted(l, f, r, hook))
  {
    var l' := Acted(l, f, r, hook);
    var d := DebtOf(f).value;
    RepliesAppend(l.toPy, r.sends, l.ignored);
    assert Owes(l, d) by {
      assert f in l.toGo;
    }
    SettledIsNotOwed(l, f, r, hook, armed);
    if f.OtpPrepare? && armed && r.verdict == Continue {
      ArmedStaysArmed(l, f, ViewOf(l'));
    }
    if Current(l.pc) == Some(d) {
      assert Replies(l.toPy, l.ignored) == [];
    } else {
      assert Ignorable(r.sends[0], l.ignored);
      assert Replies(l'.toPy, l.ignored) == Replies(l.toPy, l.ignored);
      if Current(l.pc).Some? && Owes(l', Current(l.pc).value) {
        ActOwes(l, f, r, hook, Current(l.pc).value);
      }
    }
  }

  // ---------------------------------------------------------------- the coordinator's other steps

  /** The coordinator's next state differs only in what it owes and what it has sent. */
  predicate Beside(l: Link, l': Link, sends: seq<ToPy>) {
    && l'.pc == l.pc && l'.issued == l.issued && l'.ignored == l.ignored && l'.toGo == l.toGo
    && l'.coord.program == l.coord.program && ViewOf(l') == ViewOf(l)
    && (l'.phase == Live ==> l.phase == Live)
    && l'.toPy == l.toPy + sends
  }

  /** Sending the reply to a debt, and owing it no more, keeps the exchange in step. */
  lemma ReplyKeeps(l: Link, l': Link, d: Debt, g: ToPy)
    requires Queue(l) && Owed(l) && InFlight(l) && Beside(l, l', [g])
    requires Owes(l, d) && forall e :: Owes(l', e) ==> Owes(l, e) && e != d
    requires Current(l.pc) == Some(d) ==> Expects(l.pc, g) && !g.OtpReady?
    requires Forgiven(d, l.ignored) ==> Ignorable(g, l.ignored)
    ensures Queue(l') && Owed(l') && InFlight(l')
  {
    RepliesAppend(l.toPy, [g], l.ignored);
  }

  lemma SilenceKeeps(l: Link, l': Link)
    requires Queue(l) && Owed(l) && InFlight(l) && Beside(l, l', [])
    requires forall e :: Owes(l', e) ==> Owes(l, e)
    ensures Queue(l') && Owed(l') && InFlight(l')
  {
    assert l'.toPy == l.toPy;
  }

  lemma CodeWaitOwes(l: Link, id: Id, o: OtpOutcome, d: Debt)
    requires Books(l) && Queue(l) && Enabled(l, CodeWaitEnds(id, o)) && Owes(ControlDo(l, CodeWaitEnds(id, o)), d)
    ensures Owes(l, d) && d != DCode(id)
  {
    UsedIdsStayOut(l.coord.program, ViewOf(l), l.toGo, id);
  }

  lemma CodeWaitKeeps(l: Link, id: Id, o: OtpOutcome)
    requires Books(l) && Queue(l) && Owed(l) && InFlight(l) && Enabled(l, CodeWaitEnds(id, o))
    ensures var l' := ControlDo(l, CodeWaitEnds(id, o)); Queue(l') && Owed(l') && InFlight(l')
  {
    var l' := ControlDo(l, CodeWaitEnds(id, o));
    forall d | Owes(l', d) ensures Owes(l, d) && d != DCode(id) {
      CodeWaitOwes(l, id, o, d);
    }
    if id in l.coord.challenges {
      ReplyKeeps(l, l', DCode(id), OtpReply(id, o));
    } else {
      SilenceKeeps(l, l');
    }
  }

  lemma ApprovalOwes(l: Link, l': Link, d: Debt)
    requires Books(l) && Queue(l) && l.phase == Live && l.approval != Idle
    requires l'.coord == l.coord && l'.toGo == l.toGo && l'.approval == Idle && Owes(l', d)
    ensures Owes(l, d) && d != DApproval(l.approval.id)
  {
    UsedIdsStayOut(l.coord.program, ViewOf(l), l.toGo, l.approval.id);
  }

  lemma ApprovalKeeps(l: Link, hook: bool)
    requires Books(l) && Queue(l) && Owed(l) && InFlight(l) && l.phase == Live && l.approval.Answered?
    ensures var l' := Resolved(l, hook); Queue(l') && Owed(l') && InFlight(l')
  {
    var l' := Resolved(l, hook);
    var id := l.approval.id;
    forall d | Owes(l', d) ensures Owes(l, d) && d != DApproval(id) {
      ApprovalOwes(l, l', d);
    }
    if l.approval.decision != Some(Approve) {
      ReplyKeeps(l, l', DApproval(id), ApprovalCancel(id));
    } else if hook {
      ReplyKeeps(l, l', DApproval(id), ApprovalApprove(id));
    } else {
      SilenceKeeps(l, l');
    }
  }

  /** Only handling a frame changes what the coordinator has seen. */
  lemma WorkerKeepsBooks(l: Link, s: Step)
    requires Books(l) && Enabled(l, s) && OfWorker(s)
    ensures Books(WorkerDo(l, s))
  {
    assert WorkerDo(l, s).coord == l.coord && WorkerDo(l, s).seen == l.seen && WorkerDo(l, s).asked == l.asked;
  }

  /** Steps that send no reply and settle nothing. */
  predicate Aside(s: Step) {
    s == DecisionTaken || s == DecisionAbandoned || s == ContextEnds || s == CancelSent || s.RunEnds? || s == RunAborts ||
    s.HubReceives? || s == Crash
  }

  lemma AsideKeepsBooks(l: Link, s: Step)
    requires Books(l) && Enabled(l, s) && Aside(s)
    ensures Books(ControlDo(l, s)) && ControlDo(l, s).coord == l.coord
  {
    assert ControlDo(l, s).seen == l.seen && ControlDo(l, s).asked == l.asked && ControlDo(l, s).coord == l.coord;
  }

  lemma ApprovalKeepsBooks(l: Link, hook: bool)
    requires Books(l) && l.approval.Answered?
    ensures Books(Resolved(l, hook))
  {
  }

  lemma CodeWaitKeepsBooks(l: Link, id: Id, o: OtpOutcome)
    requires Books(l) && Enabled(l, CodeWaitEnds(id, o))
    ensures Books(ControlDo(l, CodeWaitEnds(id, o)))
  {
  }

  lemma CancelKeeps(l: Link)
    requires Queue(l) && Owed(l) && InFlight(l)
    ensures var l' := l.(toPy := l.toPy + [ControlCancel]); Queue(l') && Owed(l') && InFlight(l')
  {
    var l' := l.(toPy := l.toPy + [ControlCancel]);
    forall d ensures Owes(l', d) == Owes(l, d) {
    }
    RepliesAppend(l.toPy, [ControlCancel], l.ignored);
  }

  lemma AsideIsSilent(l: Link, s: Step)
    requires Enabled(l, s) && Aside(s) && s != CancelSent
    ensures Beside(l, ControlDo(l, s), []) && forall d :: Owes(ControlDo(l, s), d) ==> Owes(l, d)
  {
    var l' := ControlDo(l, s);
    assert l'.toPy == l.toPy;
  }

  lemma AsideKeeps(l: Link, s: Step)
    requires Queue(l) && Owed(l) && InFlight(l) && Enabled(l, s) && Aside(s)
    ensures var l' := ControlDo(l, s); Queue(l') && Owed(l') && InFlight(l')
  {
    var l' := ControlDo(l, s);
    if s == CancelSent {
      CancelKeeps(l);
    } else {
      AsideIsSilent(l, s);
      SilenceKeeps(l, l');
    }
  }

  // ---------------------------------------------------------------- history

  lemma EmitKeepsHistory(l: Link, f: ToGo)
    requires History(l) && Send(l.coord.program, l.pc, f).Some?
    ensures History(Emitted(l, f))
  {
  }

  lemma TakeKeepsHistory(l: Link, s: Step)
    requires History(l) && Enabled(l, s) && (s == WorkerTakes || s == WorkerDrops)
    ensures History(WorkerDo(l, s))
  {
    assert forall g :: g in l.toPy[1..] ==> g in l.toPy;
  }

  lemma WorkerKeepsHistory(l: Link, s: Step)
    requires History(l) && Enabled(l, s) && OfWorker(s) && !s.WorkerEmits? && s != WorkerTakes && s != WorkerDrops
    ensures History(WorkerDo(l, s))
  {
    assert WorkerDo(l, s).toPy == l.toPy && WorkerDo(l, s).coord == l.coord && WorkerDo(l, s).marked == l.marked && WorkerDo(l, s).resumed == l.resumed;
  }

  /** Sending frames that carry no permission keeps the history. */
  lemma RepliesKeepHistory(l: Link, l': Link, sends: seq<ToPy>)
    requires History(l) && l' == l.(coord := l'.coord, phase := l'.phase, waiter := l'.waiter, approval := l'.approval,
                                    interrupted := l'.interrupted, toPy := l.toPy + sends)
    requires l'.coord.program == l.coord.program && l'.coord.started == l.coord.started
    requires forall g :: g in sends ==> !g.ConfirmationReady? && !g.ApprovalApprove?
    ensures History(l')
  {
  }

  lemma CodeWaitKeepsPast(l: Link, id: Id, o: OtpOutcome)
    requires History(l) && Reports(l) && Enabled(l, CodeWaitEnds(id, o))
    ensures History(ControlDo(l, CodeWaitEnds(id, o))) && Reports(ControlDo(l, CodeWaitEnds(id, o)))
  {
    RepliesKeepHistory(l, ControlDo(l, CodeWaitEnds(id, o)), DeliverCode(l.coord, id, o).1);
  }

  lemma ResumedKeepsHistory(l: Link, l': Link, id: Id)
    requires History(l) && l' == l.(approval := Idle, resumed := true, toPy := l.toPy + [ApprovalApprove(id)])
    ensures History(l')
  {
  }

  lemma ApprovalKeepsHistory(l: Link, hook: bool)
    requires History(l) && l.approval.Answered?
    ensures History(Resolved(l, hook))
  {
    var l' := Resolved(l, hook);
    if l.approval.decision != Some(Approve) {
      RepliesKeepHistory(l, l', [ApprovalCancel(l.approval.id)]);
    } else if hook {
      ResumedKeepsHistory(l, l', l.approval.id);
    } else {
      assert l'.toPy == l.toPy + [];
      RepliesKeepHistory(l, l', []);
    }
  }

  /** Sending to the worker changes nothing that was reported, and ending the loop reports only what it saw. */
  lemma SendingKeepsReports(l: Link, resumed: bool, toPy: seq<ToPy>)
    requires Reports(l)
    ensures Reports(l.(approval := Idle, resumed := resumed, toPy := toPy))
  {
  }

  lemma EndingKeepsReports(l: Link)
    requires Reports(l)
    ensures Reports(l.(approval := Idle, phase := Ended(Deferred(RunError, l.coord.completed))))
  {
  }

  lemma ApprovalKeepsReports(l: Link, hook: bool)
    requires Reports(l) && l.approval.Answered?
    ensures Reports(Resolved(l, hook))
  {
    SendingKeepsReports(l, l.resumed, l.toPy + [ApprovalCancel(l.approval.id)]);
    SendingKeepsReports(l, true, l.toPy + [ApprovalApprove(l.approval.id)]);
    EndingKeepsReports(l);
  }

  lemma AsideKeepsHistory(l: Link, s: Step)
    requires History(l) && Enabled(l, s) && Aside(s)
    ensures History(ControlDo(l, s))
  {
    if s == CancelSent {
      RepliesKeepHistory(l, ControlDo(l, s), [ControlCancel]);
    } else {
      assert ControlDo(l, s).toPy == l.toPy + [];
      RepliesKeepHistory(l, ControlDo(l, s), []);
    }
  }

  lemma AsideKeepsReports(l: Link, s: Step)
    requires Reports(l) && Enabled(l, s) && Aside(s) && !s.RunEnds?
    ensures Reports(ControlDo(l, s))
  {
  }

  lemma HandleKeepsHistory(l: Link, f: ToGo, r: Reaction, hook: bool)
    requires History(l) && l.toGo != [] && (r.call == BeginApprovalCall ==> f.ApprovalRequest?)
    requires r.coord.program == l.coord.program
    requires r.coord.started.Some? ==> l.coord.started.Some? || (r.call == MarkCall && hook)
    requires forall n :: ConfirmationReady(n) in r.sends ==> r.call == MarkCall && hook
    requires forall a :: ApprovalApprove(a) !in r.sends
    ensures History(Acted(l, f, r, hook))
  {
  }

  lemma EmitKeepsReports(l: Link, f: ToGo)
    requires Reports(l) && Send(l.coord.program, l.pc, f).Some?
    ensures Reports(Emitted(l, f))
  {
  }

  lemma TakeKeepsReports(l: Link, s: Step)
    requires Reports(l) && Enabled(l, s) && (s == WorkerTakes || s == WorkerDrops)
    ensures Reports(WorkerDo(l, s))
  {
    assert WorkerDo(l, s).toGo == l.toGo && WorkerDo(l, s).coord == l.coord && WorkerDo(l, s).phase == l.phase;
  }

  lemma WorkerKeepsReports(l: Link, s: Step)
    requires Reports(l) && History(l) && Enabled(l, s) && OfWorker(s) && !s.WorkerEmits? && s != WorkerTakes && s != WorkerDrops
    ensures Reports(WorkerDo(l, s))
  {
    assert WorkerDo(l, s).coord == l.coord && WorkerDo(l, s).phase == l.phase && WorkerDo(l, s).marked == l.marked;
    assert forall f :: f in WorkerDo(l, s).toGo ==> f in l.toGo;
  }

  lemma HandleKeepsReports(l: Link, f: ToGo, r: Reaction, hook: bool)
    requires Reports(l) && l.toGo != [] && l.toGo[0] == f && (r.call == BeginApprovalCall ==> f.ApprovalRequest?)
    requires r.coord.program == l.coord.program && l.phase == Live
    requires r.coord.completed ==> l.coord.completed || f.ConfirmationCompleted?
    requires r.coord.terminal.Some? ==> r.coord.terminal == l.coord.terminal || f == RunComplete(r.coord.terminal.value)
    ensures Reports(Acted(l, f, r, hook))
  {
    assert f in l.toGo;
    assert l.toGo == [f] + l.toGo[1..];
  }

  lemma RunEndsWithAReport(l: Link, code: int)
    requires Reports(l) && History(l) && Enabled(l, RunEnds(code))
    ensures Reports(ControlDo(l, RunEnds(code)))
  {
  }

  lemma ReactGrants(c: Coord, f: ToGo, a: Answers)
    ensures var r := React(c, f, a);
            && (r.coord.started.Some? ==> c.started.Some? || (r.call == MarkCall && a.hook))
            && (forall n :: ConfirmationReady(n) in r.sends ==> r.call == MarkCall && a.hook)
            && (forall id :: ApprovalApprove(id) !in r.sends)
            && (r.call == BeginApprovalCall ==> f.ApprovalRequest?)
            && r.coord.program == c.program
  {
  }

  lemma ReactReports(c: Coord, f: ToGo, a: Answers)
    ensures var r := React(c, f, a);
            && (r.coord.completed ==> c.completed || f.ConfirmationCompleted?)
            && (r.coord.terminal.Some? ==> r.coord.terminal == c.terminal || f == RunComplete(r.coord.terminal.value))
  {
  }

  lemma HandleKeepsPast(l: Link, a: Answers)
    requires History(l) && Reports(l) && l.phase == Live && l.toGo != []
    ensures History(Handled(l, a)) && Reports(Handled(l, a))
  {
    ReactGrants(l.coord, l.toGo[0], a);
    ReactReports(l.coord, l.toGo[0], a);
    HandleKeepsHistory(l, l.toGo[0], React(l.coord, l.toGo[0], a), a.hook);
    HandleKeepsReports(l, l.toGo[0], React(l.coord, l.toGo[0], a), a.hook);
  }

  // ---------------------------------------------------------------- every step, and every run

  ghost predicate InStep(l: Link) {
    Books(l) && Queue(l) && Owed(l) && InFlight(l) && !l.goFault && !l.pyFault
  }

  lemma HandleKeepsStep(l: Link, a: Answers)
    requires InStep(l) && Enabled(l, HandlesFrame(a))
    ensures InStep(Do(l, HandlesFrame(a)))
  {
    HandleKeepsQueue(l, a);
    HandleAccepts(l, a);
    HandleKeepsOwed(l, a);
    HandleKeepsInFlight(l, a);
  }

  lemma EmitKeepsStep(l: Link, f: ToGo)
    requires InStep(l) && Enabled(l, WorkerEmits(f))
    ensures InStep(Do(l, WorkerEmits(f)))
  {
    WorkerKeepsBooks(l, WorkerEmits(f));
    if l.phase == Live {
      SendKeepsAccepted(l.coord.program, l.pc, l.issued, ViewOf(l), l.toGo, f);
    }
    EmitKeepsOwed(l, f);
    EmitKeepsInFlight(l, f);
  }

  lemma WorkerKeepsStep(l: Link, s: Step)
    requires InStep(l) && Enabled(l, s) && OfWorker(s) && !s.WorkerEmits?
    ensures InStep(Do(l, s))
  {
    WorkerKeepsBooks(l, s);
    if s == WorkerTakes {
      TakeKeepsInFlight(l);
    } else if s == WorkerDrops {
      DropKeepsInFlight(l);
    } else if s.FramesLost? {
      LossKeepsQueue(l, s.kept);
    } else {
      QuietWorkerKeeps(l, WorkerDo(l, s).pc);
      ClickCountIsAside(l.(pc := WorkerDo(l, s).pc), WorkerDo(l, s).clicks);
    }
  }

  /** Whether a click was counted does not matter to the exchange. */
  lemma ClickCountIsAside(m: Link, clicks: nat)
    requires Queue(m) && Owed(m) && InFlight(m)
    ensures Queue(m.(clicks := clicks)) && Owed(m.(clicks := clicks)) && InFlight(m.(clicks := clicks))
  {
    var l' := m.(clicks := clicks);
    forall d ensures Owes(l', d) == Owes(m, d) {
    }
  }

  lemma ControlKeepsStep(l: Link, s: Step)
    requires InStep(l) && Enabled(l, s) && !OfWorker(s) && !s.HandlesFrame?
    ensures InStep(Do(l, s))
  {
    if s.CodeWaitEnds? {
      CodeWaitKeepsBooks(l, s.id, s.outcome);
      CodeWaitKeeps(l, s.id, s.outcome);
    } else if s.HandlesApproval? {
      ApprovalKeepsBooks(l, s.hook);
      ApprovalKeeps(l, s.hook);
    } else {
      AsideKeepsBooks(l, s);
      AsideKeeps(l, s);
    }
  }

  lemma StepKeepsStep(l: Link, s: Step)
    requires InStep(l) && Enabled(l, s)
    ensures InStep(Do(l, s))
  {
    if s.HandlesFrame? {
      HandleKeepsStep(l, s.answers);
    } else if s.WorkerEmits? {
      EmitKeepsStep(l, s.frame);
    } else if OfWorker(s) {
      WorkerKeepsStep(l, s);
    } else {
      ControlKeepsStep(l, s);
    }
  }

  lemma WorkerKeepsPast(l: Link, s: Step)
    requires History(l) && Reports(l) && Enabled(l, s) && OfWorker(s)
    ensures History(WorkerDo(l, s)) && Reports(WorkerDo(l, s))
  {
    if s.WorkerEmits? {
      EmitKeepsHistory(l, s.frame);
      EmitKeepsReports(l, s.frame);
    } else if s == WorkerTakes || s == WorkerDrops {
      TakeKeepsHistory(l, s);
      TakeKeepsReports(l, s);
    } else {
      WorkerKeepsHistory(l, s);
      WorkerKeepsReports(l, s);
    }
  }

  lemma ControlKeepsPast(l: Link, s: Step)
    requires History(l) && Reports(l) && Enabled(l, s) && !OfWorker(s)
    ensures History(ControlDo(l, s)) && Reports(ControlDo(l, s))
  {
    if s.HandlesFrame? {
      HandleKeepsPast(l, s.answers);
    } else if s.CodeWaitEnds? {
      CodeWaitKeepsPast(l, s.id, s.outcome);
    } else if s.HandlesApproval? {
      ApprovalKeepsHistory(l, s.hook);
      ApprovalKeepsReports(l, s.hook);
    } else {
      AsideKeepsHistory(l, s);
      if s.RunEnds? { RunEndsWithAReport(l, s.exitCode); } else { AsideKeepsReports(l, s); }
    }
  }

  lemma StepKeepsPast(l: Link, s: Step)
    requires History(l) && Reports(l) && Enabled(l, s)
    ensures History(Do(l, s)) && Reports(Do(l, s))
  {
    if OfWorker(s) {
      WorkerKeepsPast(l, s);
    } else {
      ControlKeepsPast(l, s);
    }
  }

  ghost predicate Inv(l: Link) {
    InStep(l) && History(l) && Reports(l)
  }

  lemma ReactKeepsProgram(c: Coord, f: ToGo, a: Answers)
    ensures React(c, f, a).coord.program == c.program
  {
  }

  lemma WorkerKeepsCoord(l: Link, s: Step)
    requires Enabled(l, s) && OfWorker(s)
    ensures Do(l, s).coord == l.coord
  {
  }

  lemma ApprovalKeepsCoord(l: Link, hook: bool)
    requires l.approval.Answered?
    ensures Resolved(l, hook).coord == l.coord
  {
  }

  lemma StepKeepsProgram(l: Link, s: Step)
    requires Books(l) && Enabled(l, s)
    ensures Do(l, s).coord.program == l.coord.program
  {
    if s.HandlesFrame? {
      ReactKeepsProgram(l.coord, l.toGo[0], s.answers);
    } else if OfWorker(s) {
      WorkerKeepsCoord(l, s);
    } else if s.HandlesApproval? {
      ApprovalKeepsCoord(l, s.hook);
    } else if !s.CodeWaitEnds? {
      AsideKeepsBooks(l, s);
    }
  }

  lemma StepKeepsInv(l: Link, s: Step)
    requires Inv(l) && Enabled(l, s)
    ensures Inv(Do(l, s)) && Do(l, s).coord.program == l.coord.program
  {
    StepKeepsStep(l, s);
    StepKeepsPast(l, s);
    StepKeepsProgram(l, s);
  }

  lemma NewLinkHolds(p: Program)
    ensures Inv(NewLink(p))
  {
  }

  /** A run of one job's two processes. */
  ghost predicate IsRun(p: Program, states: seq<Link>, steps: seq<Step>) {
    && |states| == |steps| + 1
    && states[0] == NewLink(p)
    && forall i {:trigger steps[i]} :: 0 <= i < |steps| ==> Enabled(states[i], steps[i]) && states[i + 1] == Do(states[i], steps[i])
  }

  lemma {:induction false} RunKeepsInv(p: Program, states: seq<Link>, steps: seq<Step>, k: nat)
    requires IsRun(p, states, steps) && k < |states|
    ensures Inv(states[k]) && states[k].coord.program == p
    decreases k
  {
    if k == 0 {
      NewLinkHolds(p);
    } else {
      RunKeepsInv(p, states, steps, k - 1);
      NextKeepsInv(p, states, steps, k - 1);
    }
  }

  lemma NextKeepsInv(p: Program, states: seq<Link>, steps: seq<Step>, k: nat)
    requires IsRun(p, states, steps) && k < |steps| && Inv(states[k])
    ensures Inv(states[k + 1]) && states[k + 1].coord.program == states[k].coord.program
  {
    var s := steps[k];
    StepKeepsInv(states[k], s);
  }

  /** No interleaving of the two processes ends in a protocol error on either side. */
  lemma NoProtocolError(p: Program, states: seq<Link>, steps: seq<Step>, k: nat)
    requires IsRun(p, states, steps) && k < |states|
    ensures !states[k].goFault && !states[k].pyFault
  {
    RunKeepsInv(p, states, steps, k);
  }

  /** Over every interleaving: at most one click, after the marker and, in manual mode, after the resumed approval. */
  lemma ClickFollowsMarker(p: Program, states: seq<Link>, steps: seq<Step>, k: nat)
    requires IsRun(p, states, steps) && k < |steps| && steps[k] == WorkerClicks
    ensures states[k].clicks == 0 && states[k].marked && (Manually(p) ==> states[k].resumed)
  {
    RunKeepsInv(p, states, steps, k);
  }

  /** The act of the worker's automaton that a step performs; dropping a late reply and losing frames are none. */
  function ActOf(l: Link, s: Step): Option<Act>
    requires Enabled(l, s) && OfWorker(s)
  {
    match s
    case WorkerEmits(f) => Some(Emit(f))
    case WorkerTakes => Some(Take(l.toPy[0]))
    case WorkerClicks => Some(Click)
    case WorkerRaises(st) => Some(Raise(st))
    case WorkerSucceeds => Some(Succeed)
    case WorkerDies => Some(Die)
    case _ => None
  }

  /** The worker here is the automaton: its control point moves by the automaton's acts. */
  lemma WorkerIsTheAutomaton(l: Link, s: Step)
    requires Enabled(l, s) && OfWorker(s)
    ensures var act := ActOf(l, s);
            if act.None? then WorkerDo(l, s).pc == l.pc else Next(l.coord.program, l.pc, act.value) == Some(WorkerDo(l, s).pc)
  {
  }

  lemma SendingReachesNoClick(p: Program, pc: Pc, f: ToGo)
    requires Send(p, pc, f).Some? && (Send(p, pc, f).value.Clicked? || Send(p, pc, f).value.ReadyToClick?)
    ensures Send(p, pc, f).value == pc
  {
  }

  lemma TakingReachesReadiness(pc: Pc, f: ToPy)
    requires Waiting(pc) && (Receive(pc, f).Clicked? || Receive(pc, f).ReadyToClick?)
    ensures Receive(pc, f).ReadyToClick? && pc == AwaitConfirmation(Receive(pc, f).id) && f == ConfirmationReady(Receive(pc, f).id)
  {
  }

  /** The clicked point is reached by the click, and the point before it by taking the acknowledgement, both for the same confirmation. */
  lemma TheWayToTheClick(l: Link, s: Step)
    requires Enabled(l, s) && OfWorker(s)
    ensures var pc := WorkerDo(l, s).pc;
            && (pc.Clicked? && pc != l.pc ==> s == WorkerClicks && l.pc == ReadyToClick(pc.id))
            && (pc.ReadyToClick? && pc != l.pc ==> s == WorkerTakes && l.pc == AwaitConfirmation(pc.id) && l.toPy[0] == ConfirmationReady(pc.id))
  {
    var pc := WorkerDo(l, s).pc;
    if pc.Clicked? || pc.ReadyToClick? {
      if s.WorkerEmits? {
        SendingReachesNoClick(l.coord.program, l.pc, s.frame);
      } else if s == WorkerTakes {
        TakingReachesReadiness(l.pc, l.toPy[0]);
      }
    }
  }
}
