/** One run's exchange is live: no awaited reply is lost, and while the loop runs the two processes are never stuck. */
module Progress {
  import opened Types
  import opened Frames
  import opened Worker
  import opened Coordinator
  import opened Link

  /** The challenges the worker is done with were its own, and the one it is working on is not among them. */
  predicate Open(l: Link) {
    && l.ignored <= l.issued
    && (l.pc.AwaitArm? || l.pc.Armed? || l.pc.Triggered? ==> l.pc.id !in l.ignored)
    && (l.pc.AwaitArm? || l.pc.Armed? || l.pc.Triggered? || l.pc.HaveCode? || l.pc.Closing? ==> l.pc.id in l.issued)
  }

  /** A blocked approval wait can still be answered. */
  predicate Answerable(l: Link) {
    l.approval.Blocked? ==> l.waiter.Waiter? && (l.waiter.decided ==> l.waiter.buffer.Some?)
  }

  /** The reply the worker waits for is owed, or it is on its way. */
  ghost predicate Awaited(l: Link) {
    l.phase == Live && Current(l.pc).Some? ==> Owes(l, Current(l.pc).value) || |Replies(l.toPy, l.ignored)| == 1
  }

  ghost predicate Served(l: Link) {
    Open(l) && Answerable(l) && Awaited(l)
  }

  // ---------------------------------------------------------------- the worker's steps

  lemma EmitKeepsServed(l: Link, f: ToGo)
    requires Served(l) && Enabled(l, WorkerEmits(f))
    ensures Served(Emitted(l, f))
  {
    var l' := Emitted(l, f);
    RequestsOpenAWait(l.coord.program, l.pc, f);
    if l.phase == Live && Current(l'.pc).Some? {
      assert f in l'.toGo;
      if DebtOf(f).None? {
        StillOwes(l, l', Current(l.pc).value);
      }
    }
  }

  lemma StillOwes(l: Link, l': Link, d: Debt)
    requires l'.phase == l.phase && l'.coord == l.coord && l'.approval == l.approval && forall f :: f in l.toGo ==> f in l'.toGo
    ensures Owes(l, d) ==> Owes(l', d)
  {
  }

  /** Whatever the worker takes, it is waiting for nothing afterwards. */
  lemma TakingEndsTheWait(pc: Pc, f: ToPy)
    requires Waiting(pc)
    ensures Current(Receive(pc, f)).None?
  {
  }

  lemma TakeKeepsOpen(l: Link)
    requires Open(l) && Enabled(l, WorkerTakes)
    ensures Open(WorkerDo(l, WorkerTakes))
  {
  }

  lemma WorkerKeepsServed(l: Link, s: Step)
    requires Served(l) && Enabled(l, s) && OfWorker(s) && !s.WorkerEmits?
    ensures Served(WorkerDo(l, s))
  {
    var l' := WorkerDo(l, s);
    if s == WorkerTakes {
      TakeKeepsOpen(l);
      TakingEndsTheWait(l.pc, l.toPy[0]);
    } else if s == WorkerDrops {
      StillOwes(l, l', Current(l.pc).value);
    }
  }

  // ---------------------------------------------------------------- the loop's steps

  /** What handling a frame settles: an answer at once, or a wait that will end in one; nothing pending is dropped but by its own closing. */
  lemma ReactAnswers(c: Coord, f: ToGo, a: Answers)
    requires React(c, f, a).verdict == Continue
    ensures var r := React(c, f, a);
            && (DebtOf(f).Some? && !f.OtpTriggered? && !f.ApprovalRequest? ==> |r.sends| == 1)
            && (f.OtpTriggered? ==> f.id in r.coord.codeWaits && f.id in r.coord.challenges)
            && (f.ApprovalRequest? ==> r.call == BeginApprovalCall)
            && (r.call == BeginApprovalCall ==> f.ApprovalRequest?)
            && forall id :: id in c.codeWaits && id in c.challenges && !(f.OtpClosed? && f.id == id) ==>
                 id in r.coord.codeWaits && id in r.coord.challenges
  {
  }

  lemma RepliesGrow(q: seq<ToPy>, sends: seq<ToPy>, ignored: set<Id>)
    ensures |Replies(q + sends, ignored)| == |Replies(q, ignored)| + |Replies(sends, ignored)|
  {
    RepliesAppend(q, sends, ignored);
  }

  lemma OneReply(g: ToPy, ignored: set<Id>)
    requires g != ControlCancel && !Ignorable(g, ignored)
    ensures |Replies([g], ignored)| == 1
  {
    assert [g][1..] == [];
  }

  /** The reply to the frame being waited on is one the worker will look at. */
  lemma AnswerCounts(l: Link, f: ToGo, r: Reaction, armed: bool)
    requires Open(l) && Current(l.pc) == DebtOf(f) && DebtOf(f).Some? && Settles(f, r.sends, armed) && |r.sends| == 1
    ensures |Replies(r.sends, l.ignored)| == 1
  {
    assert r.sends == [r.sends[0]];
    OneReply(r.sends[0], l.ignored);
  }

  /** A debt other than the handled frame's own is still owed. */
  lemma OtherDebtStays(l: Link, f: ToGo, r: Reaction, hook: bool, d: Debt)
    requires l.phase == Live && l.toGo != [] && l.toGo[0] == f && r.verdict == Continue
    requires r.call == BeginApprovalCall ==> f.ApprovalRequest?
    requires forall id :: id in l.coord.codeWaits && id in l.coord.challenges && !(f.OtpClosed? && f.id == id) ==>
               id in r.coord.codeWaits && id in r.coord.challenges
    requires d.DCode? && f.OtpClosed? ==> f.id != d.id
    requires f.ApprovalRequest? && d.DApproval? ==> f.id == d.id
    requires Owes(l, d) && DebtOf(f) != Some(d)
    ensures Owes(Acted(l, f, r, hook), d)
  {
    assert l.toGo == [f] + l.toGo[1..];
  }

  /** The handled frame's own debt is paid, or still owed as a wait. */
  lemma OwnDebtIsServed(l: Link, f: ToGo, r: Reaction, a: Answers)
    requires l.phase == Live && l.toGo != [] && l.toGo[0] == f && r == React(l.coord, f, a) && r.verdict == Continue
    requires Open(l) && Current(l.pc) == DebtOf(f) && DebtOf(f).Some? && Settles(f, r.sends, a.armed)
    requires r.call == BeginApprovalCall ==> f.ApprovalRequest?
    ensures var l' := Acted(l, f, r, a.hook); Owes(l', DebtOf(f).value) || |Replies(l'.toPy, l'.ignored)| >= 1
  {
    ReactAnswers(l.coord, f, a);
    if !f.OtpTriggered? && !f.ApprovalRequest? {
      AnswerCounts(l, f, r, a.armed);
      RepliesGrow(l.toPy, r.sends, l.ignored);
    }
  }

  lemma HandledFrameIsOwed(l: Link, f: ToGo)
    requires Owed(l) && l.phase == Live && l.toGo != [] && l.toGo[0] == f && Engaged(l.pc)
    ensures f.OtpClosed? ==> f.id in l.ignored
    ensures f.ApprovalRequest? ==> Current(l.pc) == Some(DApproval(f.id))
  {
    assert f in l.toGo;
    if f.ApprovalRequest? {
      assert Owes(l, DApproval(f.id));
    }
  }

  lemma HandleKeepsAwaited(l: Link, a: Answers)
    requires InStep(l) && Open(l) && Awaited(l) && Enabled(l, HandlesFrame(a)) && InFlight(Handled(l, a))
    ensures Awaited(Handled(l, a))
  {
    var f, r := l.toGo[0], React(l.coord, l.toGo[0], a);
    var l' := Acted(l, f, r, a.hook);
    if l'.phase == Live && Current(l.pc).Some? {
      var d := Current(l.pc).value;
      ReactSettles(l.coord, l.seen, f, a);
      ReactAnswers(l.coord, f, a);
      HandledFrameIsOwed(l, f);
      RepliesGrow(l.toPy, r.sends, l.ignored);
      if DebtOf(f) == Some(d) {
        OwnDebtIsServed(l, f, r, a);
      } else if Owes(l, d) {
        OtherDebtStays(l, f, r, a.hook, d);
      }
    }
  }

  lemma HandleKeepsOpen(l: Link, a: Answers)
    requires Open(l) && Answerable(l) && Enabled(l, HandlesFrame(a))
    ensures Open(Handled(l, a)) && Answerable(Handled(l, a))
  {
  }

  lemma CodeWaitOwesOthers(l: Link, id: Id, o: OtpOutcome, d: Debt)
    requires Enabled(l, CodeWaitEnds(id, o)) && Owes(l, d) && !(d == DCode(id) && id in l.coord.challenges)
    ensures Owes(ControlDo(l, CodeWaitEnds(id, o)), d)
  {
  }

  lemma CodeWaitKeepsAwaited(l: Link, id: Id, o: OtpOutcome)
    requires Open(l) && Awaited(l) && Enabled(l, CodeWaitEnds(id, o)) && InFlight(ControlDo(l, CodeWaitEnds(id, o)))
    ensures Awaited(ControlDo(l, CodeWaitEnds(id, o)))
  {
    var sends := DeliverCode(l.coord, id, o).1;
    RepliesGrow(l.toPy, sends, l.ignored);
    if Current(l.pc) == Some(DCode(id)) && id in l.coord.challenges {
      OneReply(OtpReply(id, o), l.ignored);
    } else if Current(l.pc).Some? && Owes(l, Current(l.pc).value) {
      CodeWaitOwesOthers(l, id, o, Current(l.pc).value);
    }
  }

  lemma ApprovalKeepsAwaited(l: Link, hook: bool)
    requires Awaited(l) && l.phase == Live && l.approval.Answered? && InFlight(Resolved(l, hook))
    ensures Awaited(Resolved(l, hook))
  {
    var l' := Resolved(l, hook);
    var approve := l.approval.decision == Some(Approve);
    if l'.phase == Live {
      var g := if approve then ApprovalApprove(l.approval.id) else ApprovalCancel(l.approval.id);
      RepliesGrow(l.toPy, [g], l.ignored);
      OneReply(g, l.ignored);
    }
  }

  lemma AsideKeepsServed(l: Link, s: Step)
    requires Served(l) && Enabled(l, s) && Aside(s)
    ensures Served(ControlDo(l, s))
  {
    var l' := ControlDo(l, s);
    if s == CancelSent {
      RepliesGrow(l.toPy, [ControlCancel], l.ignored);
      assert [ControlCancel][1..] == [];
    }
    if l'.phase == Live && Current(l.pc).Some? {
      assert Owes(l, Current(l.pc).value) ==> Owes(l', Current(l.pc).value);
    }
  }

  lemma ControlKeepsServed(l: Link, s: Step)
    requires InStep(l) && Served(l) && Enabled(l, s) && !OfWorker(s) && InFlight(ControlDo(l, s))
    ensures Served(ControlDo(l, s))
  {
    if s.HandlesFrame? {
      HandleKeepsOpen(l, s.answers);
      HandleKeepsAwaited(l, s.answers);
    } else if s.CodeWaitEnds? {
      CodeWaitKeepsAwaited(l, s.id, s.outcome);
    } else if s.HandlesApproval? {
      ApprovalKeepsAwaited(l, s.hook);
    } else {
      AsideKeepsServed(l, s);
    }
  }

  lemma StepKeepsServed(l: Link, s: Step)
    requires InStep(l) && Served(l) && Enabled(l, s)
    ensures Served(Do(l, s))
  {
    StepKeepsStep(l, s);
    if s.WorkerEmits? {
      EmitKeepsServed(l, s.frame);
    } else if OfWorker(s) {
      WorkerKeepsServed(l, s);
    } else {
      ControlKeepsServed(l, s);
    }
  }

  // ---------------------------------------------------------------- every run

  lemma {:induction false} RunKeepsServed(p: Program, states: seq<Link>, steps: seq<Step>, k: nat)
    requires IsRun(p, states, steps) && k < |states|
    ensures InStep(states[k]) && Served(states[k])
    decreases k
  {
    RunKeepsInv(p, states, steps, k);
    if k > 0 {
      RunKeepsServed(p, states, steps, k - 1);
      NextIsServed(p, states, steps, k - 1);
    }
  }

  lemma NextIsServed(p: Program, states: seq<Link>, steps: seq<Step>, k: nat)
    requires IsRun(p, states, steps) && k < |steps| && InStep(states[k]) && Served(states[k])
    ensures Served(states[k + 1])
  {
    var s := steps[k];
    StepKeepsServed(states[k], s);
  }

  /** In every state of every run, while the loop is live, the reply the worker waits for is owed or is the one reply on its way. */
  lemma NoReplyIsLost(p: Program, states: seq<Link>, steps: seq<Step>, k: nat)
    requires IsRun(p, states, steps) && k < |states| && states[k].phase == Live && Current(states[k].pc).Some?
    ensures var l := states[k]; var replies := Replies(l.toPy, l.ignored);
            && (Owes(l, Current(l.pc).value) <==> replies == [])
            && (replies != [] ==> |replies| == 1 && Expects(l.pc, replies[0]))
  {
    RunKeepsServed(p, states, steps, k);
  }

  /** The steps that carry the exchange on, without the clock, a failure or an interrupt. */
  predicate Serves(s: Step) {
    s == WorkerTakes || s == WorkerDrops || s.HandlesFrame? || s.CodeWaitEnds? || s == DecisionTaken || s.HandlesApproval? || s.HubReceives?
  }

  lemma OwedIsServable(l: Link, d: Debt) returns (s: Step)
    requires Owes(l, d) && Answerable(l)
    ensures Enabled(l, s) && Serves(s)
  {
    if l.toGo != [] {
      s := HandlesFrame(Answers(true, l.waiter == NoWaiter, true));
    } else if d.DCode? {
      s := CodeWaitEnds(d.id, CodeArrived);
    } else if l.approval.Answered? {
      s := HandlesApproval(true);
    } else {
      s := if l.waiter.decided then DecisionTaken else HubReceives(Approve);
    }
  }

  lemma WaitingIsServable(l: Link) returns (s: Step)
    requires Served(l) && l.phase == Live && Waiting(l.pc)
    ensures Enabled(l, s) && Serves(s)
  {
    if l.toPy == [] {
      s := OwedIsServable(l, Current(l.pc).value);
    } else {
      s := if Ignorable(l.toPy[0], l.ignored) then WorkerDrops else WorkerTakes;
    }
  }

  /** No deadlock: in every state of every run in which the worker waits and the loop is live, a step towards its reply can be made. */
  lemma NeverStuck(p: Program, states: seq<Link>, steps: seq<Step>, k: nat) returns (s: Step)
    requires IsRun(p, states, steps) && k < |states| && states[k].phase == Live && Waiting(states[k].pc)
    ensures Enabled(states[k], s) && Serves(s)
  {
    RunKeepsServed(p, states, steps, k);
    s := WaitingIsServable(states[k]);
  }

  // ---------------------------------------------------------------- every wait is bounded

  function Stages(a: Approval, w: Waiter): nat {
    (match a case Idle => 0 case Blocked(_) => 3 case Answered(_, _) => 2) + (if w.Waiter? && !w.decided then 1 else 0)
  }

  /** How many serving steps are left at most before the worker has taken a frame. */
  function Todo(l: Link): nat {
    6 * |l.toGo| + 2 * |l.coord.codeWaits| + Stages(l.approval, l.waiter) + |l.toPy|
  }

  lemma ReactTodo(c: Coord, f: ToGo, a: Answers)
    ensures var r := React(c, f, a);
            |r.sends| <= 1 && |r.coord.codeWaits| <= |c.codeWaits| + 1 && (r.call == BeginApprovalCall ==> r.sends == [] && r.coord == c)
  {
  }

  lemma HandlingShortens(l: Link, f: ToGo, r: Reaction, hook: bool)
    requires l.toGo != [] && (r.call == BeginApprovalCall ==> f.ApprovalRequest?)
    requires |r.sends| <= 1 && |r.coord.codeWaits| <= |l.coord.codeWaits| + 1 && (r.call == BeginApprovalCall ==> r.sends == [] && r.coord == l.coord)
    ensures Todo(Acted(l, f, r, hook)) < Todo(l)
  {
  }

  lemma CodeWaitShortens(l: Link, id: Id, o: OtpOutcome)
    requires Enabled(l, CodeWaitEnds(id, o))
    ensures Todo(ControlDo(l, CodeWaitEnds(id, o))) < Todo(l)
  {
    assert |l.coord.codeWaits - {id}| == |l.coord.codeWaits| - 1;
  }

  lemma ApprovalShortens(l: Link, hook: bool)
    requires l.approval.Answered?
    ensures Todo(Resolved(l, hook)) < Todo(l)
  {
  }

  lemma ControlShortens(l: Link, s: Step)
    requires Enabled(l, s) && (s.CodeWaitEnds? || s == DecisionTaken || s.HandlesApproval? || s.HubReceives?)
    ensures Todo(ControlDo(l, s)) < Todo(l)
  {
    if s.CodeWaitEnds? {
      CodeWaitShortens(l, s.id, s.outcome);
    } else if s.HandlesApproval? {
      ApprovalShortens(l, s.hook);
    }
  }

  /** Every serving step ends the wait or leaves less to do. */
  lemma ServingShortens(l: Link, s: Step)
    requires Enabled(l, s) && Serves(s) && Waiting(l.pc)
    ensures Waiting(Do(l, s).pc) ==> Todo(Do(l, s)) < Todo(l)
  {
    if s.HandlesFrame? {
      ReactTodo(l.coord, l.toGo[0], s.answers);
      HandlingShortens(l, l.toGo[0], React(l.coord, l.toGo[0], s.answers), s.answers.hook);
    } else if s == WorkerTakes {
      TakingEndsTheWait(l.pc, l.toPy[0]);
      assert Current(Do(l, s).pc).None?;
    } else if s != WorkerDrops {
      ControlShortens(l, s);
    }
  }

  /** The worker waits throughout this part of the run, and only serving steps are made. */
  ghost predicate OnlyServed(states: seq<Link>, steps: seq<Step>, i: nat, j: nat) {
    && i <= j <= |steps| && |states| == |steps| + 1
    && (forall k :: i <= k <= j ==> Waiting(states[k].pc))
    && (forall k :: i <= k < j ==> Serves(steps[k]))
  }

  /** So a wait that is served ends within the work outstanding when it is looked at; with `NeverStuck`, it always can be served. */
  lemma {:induction false} EveryWaitEnds(p: Program, states: seq<Link>, steps: seq<Step>, i: nat, j: nat)
    requires IsRun(p, states, steps) && OnlyServed(states, steps, i, j)
    ensures j - i + Todo(states[j]) <= Todo(states[i])
    decreases j - i
  {
    if i < j {
      EveryWaitEnds(p, states, steps, i, j - 1);
      var s := steps[j - 1];
      ServingShortens(states[j - 1], s);
    }
  }
}
