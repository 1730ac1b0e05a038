/**
 * Shutdown finishes: once the flag is set every worker leaves within a number of its own steps that is linear in the
 * number of workers, apart from the tasks it still runs and the times it is sent round again.
 */
module Departure {
  import opened Sums
  import opened Memory
  import opened Programs
  import opened Victims
  import opened Machine
  import opened Custody
  import opened Ledger
  import opened Searching
  import opened Ordering
  import opened Draining

  // ---------- How far a worker is from leaving ----------

  /** Probes left in a search that finds nothing. */
  function ProbesLeft(probe: Probe, n: nat): int {
    match probe
    case Enter => 3 * n + 6
    case Yield => 3 * n + 5
    case FairNormal => 3 * n + 4
    case FairLow => 3 * n + 3
    case TryLocal => 3 * n + 2
    case TryHigh => 3 * n + 1
    case TryNormal => 3 * n
    case TryLow => 3 * n - 1
    case Choose => 3 * n - 2
    case Attempt(victims) => 3 * |victims|
    case Steal(victims) => 3 * |victims| - 1
    case Missed(victims) => 3 * |victims| - 2
  }

  /** The two loads of `should_stop`, and the sleeping count to retract. */
  function DecisionSteps(site: Site): int {
    if site == Asleep then 3 else 2
  }

  /** Steps left of a worker that finds every queue empty, the flag set and the count at zero. */
  function StepsLeft(pc: WorkerPc, n: nat): int {
    match pc
    case Pop(site, probe) => ProbesLeft(probe, n) + DecisionSteps(site)
    case LoadStop(site) => DecisionSteps(site)
    case LoadDrained(site) => DecisionSteps(site) - 1
    case Exited => 0
    case Retract(next) => (match next case Leave => 1 case Loop => 3 * n + 9 case RunIt(_) => 3 * n + 13)
    case GoSleep => 3 * n + 10
    case Blocked => 3 * n + 10
    case ReleaseGroup(_) => 3 * n + 9
    case ReleaseSlot(_) => 3 * n + 10
    case NoteDone(_) => 3 * n + 11
    case Running(_) => 3 * n + 12
    case Stolen(_, _) => 3 * n + 14
  }

  /** A task was selected, a queue asked to try again, or the in-flight count was not zero. */
  predicate SetBack(pc: WorkerPc, r: Response) {
    r.Got? || r == Retry || (pc.LoadDrained? && r != Value(0))
  }

  /** The most steps a worker can be away from leaving; with nothing left to run it is a little closer. */
  function Farthest(n: nat, drained: bool): int {
    if drained then 3 * n + 10 else 3 * n + 14
  }

  // ---------- One step ----------

  lemma ProbeDown(me: Worker, m: Memory, ch: Choice, w: nat, n: nat, queued: set<nat>)
    requires w < n && me.pc.Pop? && !AtPeers(me.pc)
    ensures var r := Exec(m, WorkerOp(w, me.pc), ch).1;
            !SetBack(me.pc, r) ==> StepsLeft(WorkerAfter(me, w, n, r, queued).pc, n) < StepsLeft(me.pc, n)
  {
  }

  lemma PeersDown(me: Worker, m: Memory, ch: Choice, w: nat, n: nat, queued: set<nat>)
    requires w < n && AtPeers(me.pc) && WorkerOk(me.pc)
    ensures var r := Exec(m, WorkerOp(w, me.pc), ch).1;
            !SetBack(me.pc, r) ==> StepsLeft(WorkerAfter(me, w, n, r, queued).pc, n) < StepsLeft(me.pc, n)
  {
    if me.pc.probe.Choose? { VictimListIsPermutation(n, w, me.cursor); }
  }

  /** Outside a search: the stop decision, the way to sleep and back, and the end of a task. */
  lemma OtherDown(me: Worker, m: Memory, ch: Choice, w: nat, n: nat, queued: set<nat>)
    requires !me.pc.Pop? && me.pc != Exited && m.shutdown
    ensures var r := Exec(m, WorkerOp(w, me.pc), ch).1;
            !SetBack(me.pc, r) ==> StepsLeft(WorkerAfter(me, w, n, r, queued).pc, n) < StepsLeft(me.pc, n)
  {
  }

  lemma MeDown(me: Worker, m: Memory, ch: Choice, w: nat, n: nat, queued: set<nat>)
    requires w < n && WorkerOk(me.pc) && me.pc != Exited && m.shutdown
    ensures var r := Exec(m, WorkerOp(w, me.pc), ch).1;
            !SetBack(me.pc, r) ==> StepsLeft(WorkerAfter(me, w, n, r, queued).pc, n) < StepsLeft(me.pc, n)
  {
    if AtPeers(me.pc) { PeersDown(me, m, ch, w, n, queued); }
    else if me.pc.Pop? { ProbeDown(me, m, ch, w, n, queued); }
    else { OtherDown(me, m, ch, w, n, queued); }
  }

  /** After shutdown each step of a worker brings it closer to leaving, or is a setback. */
  lemma StepDown(s: State, w: nat, ch: Choice)
    requires WellFormed(s) && s.mem.shutdown && Enabled(s, Work(w, ch))
    ensures var pc, pc', n := s.workers[w].pc, Next(s, Work(w, ch)).workers[w].pc, |s.workers|;
            !SetBack(pc, WorkResponse(s, w, ch)) ==> StepsLeft(pc', n) < StepsLeft(pc, n)
  {
    assert WorkerOk(s.workers[w].pc);
    MeDown(s.workers[w], s.mem, ch, w, |s.workers|, QueuedIds(s.tasks));
  }

  // ---------- How far at most ----------

  lemma PcBounds(pc: WorkerPc, w: nat, n: nat)
    requires w < n && WorkerOk(pc) && VictimsOk(pc, w, n)
    ensures 0 <= StepsLeft(pc, n) <= Farthest(n, Hand(pc).None? || pc.ReleaseGroup?)
    ensures StepsLeft(pc, n) == 0 <==> pc == Exited
  {
  }

  /** In any state of a run; in a drained one the only tasks in a hand have given their slot back. */
  lemma BoundsAt(r: seq<State>, es: seq<Event>, i: nat, w: nat)
    requires Run(r, es) && Init(r[0]) && i < |r| && w < |r[i].workers|
    ensures var pc, n := r[i].workers[w].pc, |r[i].workers|;
            && 0 <= StepsLeft(pc, n) <= Farthest(n, false)
            && (StepsLeft(pc, n) == 0 <==> pc == Exited)
            && (Drained(r[i]) ==> StepsLeft(pc, n) <= Farthest(n, true))
  {
    RunInvariant(r, es, i);
    RunSearches(r, es, i);
    assert SearchOk(r[i].mem.q, w, r[i].workers[w], |r[i].tasks|) && WorkerOk(r[i].workers[w].pc);
    PcBounds(r[i].workers[w].pc, w, |r[i].workers|);
    if Drained(r[i]) { DrainedEmpty(r[i]); }
  }

  // ---------- Along a run ----------

  predicate OwnStep(e: Event, w: nat) {
    e.Work? && e.w == w
  }

  /** Steps of worker w from state i to state j. */
  function OwnSteps(es: seq<Event>, i: nat, j: nat, w: nat): nat
    requires i <= j <= |es|
  {
    if i == j then 0 else OwnSteps(es, i, j - 1, w) + if OwnStep(es[j - 1], w) then 1 else 0
  }

  predicate SetBackAt(s: State, e: Event, w: nat) {
    OwnStep(e, w) && w < |s.workers| && SetBack(s.workers[w].pc, WorkResponse(s, w, e.ch))
  }

  /** Setbacks of worker w from state i to state j. */
  function SetBacks(r: seq<State>, es: seq<Event>, i: nat, j: nat, w: nat): nat
    requires i <= j <= |es| < |r|
  {
    if i == j then 0 else SetBacks(r, es, i, j - 1, w) + if SetBackAt(r[j - 1], es[j - 1], w) then 1 else 0
  }

  lemma {:induction false} StaysShut(r: seq<State>, es: seq<Event>, i: nat, j: nat)
    requires Run(r, es) && i <= j < |r| && r[i].mem.shutdown
    ensures r[j].mem.shutdown
  {
    if i < j {
      StaysShut(r, es, i, j - 1);
      assert StepAt(r, es, j - 1);
      ShutdownForever(r[j - 1], es[j - 1], r[j]);
    }
  }

  lemma OneMore(x: int, b: int)
    ensures x * (b + 1) == x * b + x
  {
  }

  lemma Unmoved(s: State, e: Event, s': State, w: nat)
    requires Step(s, e, s') && w < |s.workers|
    ensures |s'.workers| == |s.workers| && (!OwnStep(e, w) ==> s'.workers[w] == s.workers[w])
  {
  }

  /** The budget of one step. */
  lemma BudgetNext(r: seq<State>, es: seq<Event>, j: nat, w: nat, drained: bool)
    requires Run(r, es) && Init(r[0]) && j < |es| && w < |r[j].workers| && r[j].mem.shutdown
    requires drained ==> Drained(r[j + 1])
    ensures |r[j + 1].workers| == |r[j].workers|
    ensures var n := |r[j].workers|;
            StepsLeft(r[j + 1].workers[w].pc, n) + (if OwnStep(es[j], w) then 1 else 0)
            <= StepsLeft(r[j].workers[w].pc, n) + if SetBackAt(r[j], es[j], w) then Farthest(n, drained) else 0
  {
    assert StepAt(r, es, j);
    Unmoved(r[j], es[j], r[j + 1], w);
    BoundsAt(r, es, j, w);
    BoundsAt(r, es, j + 1, w);
    if OwnStep(es[j], w) {
      RunInvariant(r, es, j);
      StepDown(r[j], w, es[j].ch);
    }
  }

  lemma {:induction false} Budget(r: seq<State>, es: seq<Event>, i: nat, j: nat, w: nat, drained: bool)
    requires Run(r, es) && Init(r[0]) && i <= j < |r| && w < |r[i].workers| && r[i].mem.shutdown
    requires drained ==> Drained(r[i])
    ensures |r[j].workers| == |r[i].workers|
    ensures var n := |r[i].workers|;
            OwnSteps(es, i, j, w) + StepsLeft(r[j].workers[w].pc, n)
            <= StepsLeft(r[i].workers[w].pc, n) + Farthest(n, drained) * SetBacks(r, es, i, j, w)
  {
    if i < j {
      Budget(r, es, i, j - 1, w, drained);
      StaysShut(r, es, i, j - 1);
      if drained { StaysDrained(r, es, i, j); }
      BudgetNext(r, es, j - 1, w, drained);
      OneMore(Farthest(|r[i].workers|, drained), SetBacks(r, es, i, j - 1, w));
    }
  }

  lemma Leaves(r: seq<State>, es: seq<Event>, i: nat, j: nat, w: nat, drained: bool)
    requires Run(r, es) && Init(r[0]) && i <= j < |r| && w < |r[i].workers| && r[i].mem.shutdown
    requires drained ==> Drained(r[i])
    ensures w < |r[j].workers|
    ensures OwnSteps(es, i, j, w) >= Farthest(|r[i].workers|, drained) * (1 + SetBacks(r, es, i, j, w)) ==>
              r[j].workers[w].pc == Exited
  {
    Budget(r, es, i, j, w, drained);
    BoundsAt(r, es, i, w);
    BoundsAt(r, es, j, w);
    OneMore(Farthest(|r[i].workers|, drained), SetBacks(r, es, i, j, w));
  }

  /**
   * Shutdown finishes: once the shutdown flag is set, a worker that has taken (3n + 14) * (1 + b) steps of its own has
   * left, where n is the number of workers and b how often it selected a task, was told by a queue to retry, or read a
   * count other than zero.
   */
  lemma WorkersLeave(r: seq<State>, es: seq<Event>, i: nat, j: nat, w: nat)
    requires Run(r, es) && Init(r[0]) && i <= j < |r| && w < |r[i].workers| && r[i].mem.shutdown
    ensures w < |r[j].workers|
    ensures OwnSteps(es, i, j, w) >= (3 * |r[i].workers| + 14) * (1 + SetBacks(r, es, i, j, w)) ==>
              r[j].workers[w].pc == Exited
  {
    Leaves(r, es, i, j, w, false);
  }

  // ---------- From a drained state ----------

  /** A drained scheduler reads a count other than zero only while some submission holds a slot it will give back. */
  lemma CountOfDrained(s: State)
    requires InBalance(s) && Drained(s)
    ensures s.mem.inFlight == Sum(s.calls, Reserved)
    ensures (forall c :: 0 <= c < |s.calls| ==> !HasSlot(s.calls[c].pc)) ==> s.mem.inFlight == 0
  {
    SumConstant(s.tasks, Waiting, 0);
    SumConstant(s.tasks, Executing, 0);
    if forall c :: 0 <= c < |s.calls| ==> !HasSlot(s.calls[c].pc) { SumConstant(s.calls, Reserved, 0); }
  }

  /** From a drained state on there is nothing to select, and (3n + 10) * (1 + b) steps are enough. */
  lemma WorkersLeaveDrained(r: seq<State>, es: seq<Event>, i: nat, j: nat, w: nat)
    requires Run(r, es) && Init(r[0]) && i <= j < |r| && w < |r[i].workers| && Drained(r[i])
    ensures w < |r[j].workers| && r[j].workers[w].selected == r[i].workers[w].selected
    ensures OwnSteps(es, i, j, w) >= (3 * |r[i].workers| + 10) * (1 + SetBacks(r, es, i, j, w)) ==>
              r[j].workers[w].pc == Exited
  {
    Leaves(r, es, i, j, w, true);
    NothingSelected(r, es, i, j, w);
  }

  lemma DrainedAnswer(s: State, w: nat, ch: Choice)
    requires InCustody(s) && InBalance(s) && Drained(s) && Enabled(s, Work(w, ch))
    ensures !WorkResponse(s, w, ch).Got?
  {
    DrainedEmpty(s);
    EmptyAnswer(s.mem, WorkerOp(w, s.workers[w].pc), ch);
  }

  lemma EmptyAnswer(m: Memory, op: Op, ch: Choice)
    requires m.q.high == [] && m.q.normal == [] && m.q.low == []
    requires forall v :: 0 <= v < |m.q.deques| ==> m.q.deques[v] == []
    ensures !Exec(m, op, ch).1.Got?
  {
  }

  lemma SelectNothing(s: State, e: Event, s': State, w: nat)
    requires InCustody(s) && InBalance(s) && Drained(s) && Step(s, e, s') && w < |s.workers|
    ensures w < |s'.workers| && s'.workers[w].selected == s.workers[w].selected
  {
    Unmoved(s, e, s', w);
    if OwnStep(e, w) {
      DrainedAnswer(s, w, e.ch);
      SelectedStep(s.workers[w], w, |s.workers|, s.mem, e.ch, QueuedIds(s.tasks));
    }
  }

  lemma {:induction false} NothingSelected(r: seq<State>, es: seq<Event>, i: nat, j: nat, w: nat)
    requires Run(r, es) && Init(r[0]) && i <= j < |r| && w < |r[i].workers| && Drained(r[i])
    ensures w < |r[j].workers| && r[j].workers[w].selected == r[i].workers[w].selected
  {
    if i < j {
      NothingSelected(r, es, i, j - 1, w);
      StaysDrained(r, es, i, j - 1);
      RunInvariant(r, es, j - 1);
      assert StepAt(r, es, j - 1);
      SelectNothing(r[j - 1], es[j - 1], r[j], w);
    }
  }

  ghost predicate NoneHoldsSlot(s: State) {
    forall c :: 0 <= c < |s.calls| ==> !HasSlot(s.calls[c].pc)
  }

  predicate Retried(s: State, e: Event, w: nat) {
    OwnStep(e, w) && w < |s.workers| && WorkResponse(s, w, e.ch) == Retry
  }

  lemma NoSetBackNext(r: seq<State>, es: seq<Event>, j: nat, w: nat)
    requires Run(r, es) && Init(r[0]) && j < |es| && Drained(r[j])
    requires NoneHoldsSlot(r[j]) && !Retried(r[j], es[j], w)
    ensures !SetBackAt(r[j], es[j], w)
  {
    RunInvariant(r, es, j);
    assert StepAt(r, es, j);
    CountOfDrained(r[j]);
    if OwnStep(es[j], w) { DrainedAnswer(r[j], w, es[j].ch); }
  }

  lemma {:induction false} NoSetBacks(r: seq<State>, es: seq<Event>, i: nat, j: nat, w: nat)
    requires Run(r, es) && Init(r[0]) && i <= j < |r| && Drained(r[i])
    requires forall k :: i <= k < j ==> NoneHoldsSlot(r[k]) && !Retried(r[k], es[k], w)
    ensures SetBacks(r, es, i, j, w) == 0
  {
    if i < j {
      NoSetBacks(r, es, i, j - 1, w);
      StaysDrained(r, es, i, j - 1);
      assert NoneHoldsSlot(r[j - 1]) && !Retried(r[j - 1], es[j - 1], w);
      NoSetBackNext(r, es, j - 1, w);
    }
  }

  /** While no submission holds a slot and no queue asks for a retry, 3n + 10 steps are enough. */
  lemma WorkersLeaveInPeace(r: seq<State>, es: seq<Event>, i: nat, j: nat, w: nat)
    requires Run(r, es) && Init(r[0]) && i <= j < |r| && w < |r[i].workers| && Drained(r[i])
    requires forall k :: i <= k < j ==> NoneHoldsSlot(r[k]) && !Retried(r[k], es[k], w)
    ensures w < |r[j].workers|
    ensures OwnSteps(es, i, j, w) >= 3 * |r[i].workers| + 10 ==> r[j].workers[w].pc == Exited
  {
    NoSetBacks(r, es, i, j, w);
    WorkersLeaveDrained(r, es, i, j, w);
  }
}
