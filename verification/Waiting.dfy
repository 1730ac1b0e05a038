/** Group closing and the two waits: what a zero count lets a caller conclude, now and later. */
module Waiting {
  import opened Sums
  import opened Queues
  import opened Memory
  import opened Programs
  import opened Machine
  import opened Custody
  import opened Ledger

  // ---------- Closed groups ----------

  /** Past both closed-checks of its registration, and still counted or about to publish. */
  predicate Admitted(pc: CallPc) {
    pc.FinalCheck? || pc.FinalRelease? || pc.FinalUndo? || pc.Publish?
  }

  ghost predicate GroupDone(tasks: seq<Record>, g: nat, upTo: nat)
    requires upTo <= |tasks|
  {
    forall i :: 0 <= i < upTo && tasks[i].task.group == Some(g) ==> tasks[i].phase == Done
  }

  ghost predicate Quiescent(s: State, g: nat) {
    && g < |s.mem.groups| && s.mem.groups[g].closed
    && (forall c :: 0 <= c < |s.calls| && s.calls[c].group == Some(g) ==> !Admitted(s.calls[c].pc))
    && GroupDone(s.tasks, g, |s.tasks|)
  }

  /** A zero count means no registered submission and no unfinished task of the group. */
  lemma ZeroMeansDone(s: State, g: nat)
    requires InBalance(s) && g < |s.mem.groups| && s.mem.groups[g].count == 0
    ensures GroupDone(s.tasks, g, |s.tasks|)
    ensures forall c :: 0 <= c < |s.calls| && s.calls[c].group == Some(g) ==> !HasEntry(s.calls[c].pc)
  {
    assert GroupBalance(s, g);
    SumNonNegative(s.calls, Registered(g));
    SumNonNegative(s.tasks, Member(g));
    forall c | 0 <= c < |s.calls| && s.calls[c].group == Some(g)
      ensures !HasEntry(s.calls[c].pc)
    {
      assert Registered(g)(s.calls[c]) == 0;
    }
    forall i | 0 <= i < |s.tasks| && s.tasks[i].task.group == Some(g)
      ensures s.tasks[i].phase == Done
    {
      assert Member(g)(s.tasks[i]) == 0;
    }
  }

  lemma SubmitQuiescent(s: State, c: nat, ch: Choice, g: nat)
    requires InCustody(s) && Quiescent(s, g) && Enabled(s, Submit(c, ch))
    ensures Quiescent(Next(s, Submit(c, ch)), g)
  {
    assert CallOk(s.mem, s.calls[c]);
    SubmitEffect(s, c, ch);
    var s' := Next(s, Submit(c, ch));
    assert |s'.mem.groups| == |s.mem.groups| && s'.mem.groups[g].closed;
  }

  lemma WorkQuiescent(s: State, w: nat, ch: Choice, g: nat)
    requires InCustody(s) && Quiescent(s, g) && Enabled(s, Work(w, ch))
    ensures Quiescent(Next(s, Work(w, ch)), g)
  {
    FollowEffect(s, w, ch);
    StaysClosed(s.mem, WorkerOp(w, s.workers[w].pc), ch, g);
  }

  /** A closed group stays closed under any operation. */
  lemma StaysClosed(m: Memory, op: Op, ch: Choice, g: nat)
    requires g < |m.groups| && m.groups[g].closed
    ensures var m' := Exec(m, op, ch).0; |m'.groups| == |m.groups| && m'.groups[g].closed
  {
  }

  lemma StepQuiescent(s: State, e: Event, s': State, g: nat)
    requires InCustody(s) && Quiescent(s, g) && Step(s, e, s')
    ensures Quiescent(s', g)
  {
    match e
    case Submit(c, ch) => SubmitQuiescent(s, c, ch, g);
    case Work(w, ch) => WorkQuiescent(s, w, ch, g);
    case _ =>
  }

  lemma QuiescentNext(r: seq<State>, es: seq<Event>, i: nat, g: nat)
    requires Run(r, es) && Init(r[0]) && i < |es| && Quiescent(r[i], g)
    ensures Quiescent(r[i + 1], g)
  {
    RunInvariant(r, es, i);
    assert StepAt(r, es, i);
    StepQuiescent(r[i], es[i], r[i + 1], g);
  }

  lemma {:induction false} StaysQuiescent(r: seq<State>, es: seq<Event>, i: nat, j: nat, g: nat)
    requires Run(r, es) && Init(r[0]) && i <= j < |r| && Quiescent(r[i], g)
    ensures Quiescent(r[j], g)
  {
    if i < j {
      StaysQuiescent(r, es, i, j - 1, g);
      QuiescentNext(r, es, j - 1, g);
    }
  }

  /**
   * From any state in which a group is closed and its count is zero, no step of any continuation publishes a task of
   * that group, however submissions race through the check, the increment and the re-check; and its tasks stay done.
   */
  lemma ClosedGroupStaysQuiet(r: seq<State>, es: seq<Event>, i: nat, j: nat, g: nat)
    requires Run(r, es) && Init(r[0]) && i <= j < |r|
    requires g < |r[i].mem.groups| && r[i].mem.groups[g].closed && r[i].mem.groups[g].count == 0
    ensures GroupDone(r[j].tasks, g, |r[j].tasks|)
    ensures j < |es| && es[j].Submit? ==>
              es[j].c < |r[j].calls| && (r[j].calls[es[j].c].pc.Publish? ==> r[j].calls[es[j].c].group != Some(g))
  {
    RunInvariant(r, es, i);
    ZeroMeansDone(r[i], g);
    StaysQuiescent(r, es, i, j, g);
    if j < |es| && es[j].Submit? { assert StepAt(r, es, j); }
  }

  // ---------- Waiting ----------

  predicate Settled(rec: Record, target: Target) {
    match target
    case Everything => Finished(rec.phase)
    case OfGroup(g) => rec.task.group == Some(g) ==> rec.phase == Done
  }

  ghost predicate WaiterOk(tasks: seq<Record>, x: Waiter) {
    && x.before <= |tasks|
    && (x.pc.Released? ==>
          x.before <= x.pc.until <= |tasks| && forall i :: 0 <= i < x.pc.until ==> Settled(tasks[i], x.target))
  }

  ghost predicate WaitersOk(s: State) {
    forall x :: 0 <= x < |s.waiters| ==> WaiterOk(s.tasks, s.waiters[x])
  }

  /** Settled is permanent: a step changes settled tasks at most from freed to done, and publishes at the end. */
  lemma StepSettled(s: State, e: Event, s': State)
    requires InCustody(s) && Step(s, e, s')
    ensures |s'.tasks| >= |s.tasks|
    ensures forall i :: 0 <= i < |s.tasks| ==>
              s'.tasks[i].task == s.tasks[i].task && s'.tasks[i].caller == s.tasks[i].caller
    ensures forall i, target: Target :: 0 <= i < |s.tasks| && Settled(s.tasks[i], target) ==>
              Settled(s'.tasks[i], target)
  {
    match e
    case Submit(c, ch) => SubmitEffect(s, c, ch);
    case Work(w, ch) =>
      FollowEffect(s, w, ch);
      HandStep(s.workers[w], w, |s.workers|, s.mem, ch, QueuedIds(s.tasks));
    case _ =>
  }

  lemma WaitRelease(s: State, x: nat)
    requires InCustody(s) && InBalance(s) && WaitersOk(s) && Enabled(s, Wait(x))
    ensures WaiterOk(s.tasks, Next(s, Wait(x)).waiters[x])
  {
    assert WaiterOk(s.tasks, s.waiters[x]);
    if s.waiters[x].pc.Check? && Exec(s.mem, WaiterOp(s.waiters[x]), NO_CHOICE).1 == Value(0) { ZeroReleases(s, x); }
  }

  /** A waiter that reads zero can rely on it. */
  lemma ZeroReleases(s: State, x: nat)
    requires InCustody(s) && InBalance(s) && x < |s.waiters| && s.waiters[x].pc.Check?
    requires Exec(s.mem, WaiterOp(s.waiters[x]), NO_CHOICE).1 == Value(0)
    ensures forall i :: 0 <= i < |s.tasks| ==> Settled(s.tasks[i], s.waiters[x].target)
  {
    match s.waiters[x].target
    case Everything => ZeroMeansFinished(s);
    case OfGroup(g) => ZeroMeansDone(s, g);
  }

  lemma StepWaiters(s: State, e: Event, s': State)
    requires InCustody(s) && InBalance(s) && WaitersOk(s) && Step(s, e, s')
    ensures WaitersOk(s')
  {
    StepSettled(s, e, s');
    forall x | 0 <= x < |s'.waiters|
      ensures WaiterOk(s'.tasks, s'.waiters[x])
    {
      if e.Wait? && e.x == x { WaitRelease(s, x); }
      else if x < |s.waiters| { assert s'.waiters[x] == s.waiters[x] && WaiterOk(s.tasks, s.waiters[x]); }
    }
  }

  lemma {:induction false} RunWaiters(r: seq<State>, es: seq<Event>, i: nat)
    requires Run(r, es) && Init(r[0]) && i < |r|
    ensures WaitersOk(r[i])
  {
    if i > 0 {
      RunWaiters(r, es, i - 1);
      RunInvariant(r, es, i - 1);
      assert StepAt(r, es, i - 1);
      StepWaiters(r[i - 1], es[i - 1], r[i]);
    }
  }

  lemma RememberedNext(r: seq<State>, es: seq<Event>, i: nat)
    requires Run(r, es) && Init(r[0]) && i < |es|
    ensures |r[i].tasks| <= |r[i + 1].tasks| && |r[i].waiters| <= |r[i + 1].waiters|
    ensures forall id :: 0 <= id < |r[i].tasks| ==> r[i + 1].tasks[id].task == r[i].tasks[id].task
    ensures forall x :: 0 <= x < |r[i].waiters| ==>
              && r[i + 1].waiters[x].target == r[i].waiters[x].target
              && r[i + 1].waiters[x].before == r[i].waiters[x].before
  {
    RunInvariant(r, es, i);
    assert StepAt(r, es, i);
    StepSettled(r[i], es[i], r[i + 1]);
  }

  /** What is on record about a task, and about a waiter's call, stays on record. */
  lemma {:induction false} Remembered(r: seq<State>, es: seq<Event>, i: nat, j: nat)
    requires Run(r, es) && Init(r[0]) && i <= j < |r|
    ensures |r[i].tasks| <= |r[j].tasks| && |r[i].waiters| <= |r[j].waiters|
    ensures forall id :: 0 <= id < |r[i].tasks| ==> r[j].tasks[id].task == r[i].tasks[id].task
    ensures forall x :: 0 <= x < |r[i].waiters| ==>
              r[j].waiters[x].target == r[i].waiters[x].target && r[j].waiters[x].before == r[i].waiters[x].before
  {
    if i < j {
      Remembered(r, es, i, j - 1);
      RememberedNext(r, es, j - 1);
    }
  }

  lemma ReleasedTask(r: seq<State>, es: seq<Event>, j: nat, x: nat, id: nat)
    requires Run(r, es) && Init(r[0]) && j < |r| && x < |r[j].waiters| && r[j].waiters[x].pc.Released?
    requires id < r[j].waiters[x].before && id < |r[j].tasks|
    requires r[j].waiters[x].target.OfGroup? ==> r[j].tasks[id].task.group == Some(r[j].waiters[x].target.g)
    ensures r[j].tasks[id].runs == 1 && Counted(r[j].tasks[id]) == 1
  {
    RunInvariant(r, es, j);
    RunWaiters(r, es, j);
    assert WaiterOk(r[j].tasks, r[j].waiters[x]);
    assert Settled(r[j].tasks[id], r[j].waiters[x].target);
    assert RecordOk(r[j].mem, r[j].tasks[id], id);
  }

  /**
   * If a wait called at event i has returned by state j, then every submission that had been accepted when the wait
   * was called (of the group, for a group wait) has had its callback run and is counted in `completed`.
   */
  lemma WaitMeansDone(r: seq<State>, es: seq<Event>, i: nat, j: nat, c: nat)
    requires Run(r, es) && Init(r[0]) && i < j < |r| && es[i].StartWait?
    requires c < |r[i].calls| && r[i].calls[c].pc.Returned? && r[i].calls[c].pc.outcome.Accepted?
    requires es[i].target.OfGroup? ==> r[i].calls[c].group == Some(es[i].target.g)
    ensures var x := |r[i].waiters|; var id := r[i].calls[c].pc.outcome.id;
            && x < |r[j].waiters| && r[j].waiters[x].target == es[i].target
            && (r[j].waiters[x].pc.Released? ==>
                  id < |r[j].tasks| && r[j].tasks[id].runs == 1 && Counted(r[j].tasks[id]) == 1)
  {
    var x := |r[i].waiters|;
    var id := r[i].calls[c].pc.outcome.id;
    assert StepAt(r, es, i);
    assert x < |r[i + 1].waiters| && r[i + 1].waiters[x] == Waiter(es[i].target, Check, |r[i].tasks|);
    assert r[i + 1].tasks == r[i].tasks;
    assert id < |r[i].tasks| && r[i].tasks[id].task.group == r[i].calls[c].group by {
      RunInvariant(r, es, i);
      assert CallPublished(r[i], c);
    }
    Remembered(r, es, i + 1, j);
    if r[j].waiters[x].pc.Released? {
      ReleasedTask(r, es, j, x, id);
    }
  }

  // ---------- When a wait returns ----------

  /** The count a wait looks at. */
  function TargetCount(m: Memory, target: Target): int {
    match target
    case Everything => m.inFlight
    case OfGroup(g) => GroupAt(m, g).count
  }

  /**
   * A wait that checks returns if and only if the count of its target is zero at that moment; otherwise it blocks, and
   * a wait that comes back from the condvar checks again.
   */
  lemma WaitDecision(r: seq<State>, es: seq<Event>, i: nat, x: nat)
    requires Run(r, es) && i < |es| && es[i] == Wait(x)
    ensures x < |r[i].waiters| && x < |r[i + 1].waiters|
    ensures var pc, pc' := r[i].waiters[x].pc, r[i + 1].waiters[x].pc;
            && (pc.Check? ==> (pc'.Released? <==> TargetCount(r[i].mem, r[i].waiters[x].target) == 0))
            && (pc.Check? && !pc'.Released? ==> pc'.Parked?)
            && (pc.Parked? ==> pc'.Check?)
  {
    assert StepAt(r, es, i);
  }

  /** Steps of waiter x from state i to state j. */
  function WaitSteps(es: seq<Event>, i: nat, j: nat, x: nat): nat
    requires i <= j <= |es|
  {
    if i == j then 0 else WaitSteps(es, i, j - 1, x) + if es[j - 1] == Wait(x) then 1 else 0
  }

  /** Waiter x checks and reads a count other than zero. */
  predicate Denied(s: State, e: Event, x: nat) {
    e == Wait(x) && x < |s.waiters| && s.waiters[x].pc.Check? && TargetCount(s.mem, s.waiters[x].target) != 0
  }

  function Denials(r: seq<State>, es: seq<Event>, i: nat, j: nat, x: nat): nat
    requires i <= j <= |es| < |r|
  {
    if i == j then 0 else Denials(r, es, i, j - 1, x) + if Denied(r[j - 1], es[j - 1], x) then 1 else 0
  }

  /** Own steps left of a wait whose count stays zero. */
  function WaitLeft(pc: WaiterPc): nat {
    match pc case Check => 1 case Parked => 2 case Released(_) => 0
  }

  lemma WaiterUntouched(s: State, e: Event, s': State, x: nat)
    requires Step(s, e, s') && x < |s.waiters| && e != Wait(x)
    ensures x < |s'.waiters| && s'.waiters[x] == s.waiters[x]
  {
  }

  lemma {:induction false} WaitBudget(r: seq<State>, es: seq<Event>, i: nat, j: nat, x: nat)
    requires Run(r, es) && i <= j < |r| && x < |r[i].waiters|
    ensures x < |r[j].waiters| && r[j].waiters[x].target == r[i].waiters[x].target
    ensures WaitSteps(es, i, j, x) + WaitLeft(r[j].waiters[x].pc)
            <= WaitLeft(r[i].waiters[x].pc) + 2 * Denials(r, es, i, j, x)
  {
    if i < j {
      WaitBudget(r, es, i, j - 1, x);
      assert StepAt(r, es, j - 1);
      if es[j - 1] == Wait(x) { WaitDecision(r, es, j - 1, x); }
      else { WaiterUntouched(r[j - 1], es[j - 1], r[j], x); }
    }
  }

  /** A wait has returned after 2 * (1 + d) steps of its own, where d is how often it read a count other than zero. */
  lemma WaitEnds(r: seq<State>, es: seq<Event>, i: nat, j: nat, x: nat)
    requires Run(r, es) && i <= j < |r| && x < |r[i].waiters|
    ensures x < |r[j].waiters|
    ensures WaitSteps(es, i, j, x) >= 2 * (1 + Denials(r, es, i, j, x)) ==> r[j].waiters[x].pc.Released?
  {
    WaitBudget(r, es, i, j, x);
  }

  lemma {:induction false} NoDenials(r: seq<State>, es: seq<Event>, i: nat, j: nat, x: nat)
    requires Run(r, es) && i <= j < |r| && x < |r[i].waiters|
    requires forall k :: i <= k < j ==> TargetCount(r[k].mem, r[i].waiters[x].target) == 0
    ensures Denials(r, es, i, j, x) == 0
  {
    if i < j {
      NoDenials(r, es, i, j - 1, x);
      WaitBudget(r, es, i, j - 1, x);
    }
  }

  /** While the count of its target is zero, two steps of its own are enough. */
  lemma WaitReturns(r: seq<State>, es: seq<Event>, i: nat, j: nat, x: nat)
    requires Run(r, es) && i <= j < |r| && x < |r[i].waiters|
    requires forall k :: i <= k < j ==> TargetCount(r[k].mem, r[i].waiters[x].target) == 0
    ensures x < |r[j].waiters|
    ensures WaitSteps(es, i, j, x) >= 2 ==> r[j].waiters[x].pc.Released?
  {
    NoDenials(r, es, i, j, x);
    WaitEnds(r, es, i, j, x);
  }

  /** When a scheduler wait reads its zero and no submission is under way, the statistics agree and nothing is left. */
  lemma QuietWait(r: seq<State>, es: seq<Event>, i: nat, x: nat)
    requires Run(r, es) && Init(r[0]) && i < |es| && es[i] == Wait(x)
    requires x < |r[i].waiters| && r[i].waiters[x].target == Everything
    requires x < |r[i + 1].waiters| && r[i + 1].waiters[x].pc.Released?
    requires forall c :: 0 <= c < |r[i].calls| ==> r[i].calls[c].pc.Returned?
    ensures var s := r[i + 1];
            s.mem.inFlight == 0 && s.mem.stats.submitted == s.mem.stats.completed == |s.tasks| && Size(s.mem.q) == 0
  {
    assert StepAt(r, es, i);
    var s := r[i];
    RunInvariant(r, es, i);
    ZeroMeansFinished(s);
    SumConstant(s.calls, Unrecorded, 0);
    SumConstant(s.tasks, Counted, 1);
    SumConstant(s.tasks, Ledger.Waiting, 0);
  }
}
