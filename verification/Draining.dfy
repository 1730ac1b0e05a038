/** Shutdown drains: a worker leaves only when nothing is left, and nothing can arrive afterwards. */
module Draining {
  import opened Sums
  import opened Queues
  import opened Memory
  import opened Programs
  import opened Machine
  import opened Custody
  import opened Ledger

  /** Past the shutdown check that follows the reservation, and not yet published or returned. */
  predicate Cleared(pc: CallPc) {
    || pc.GroupCheck? || pc.GroupAdd? || pc.GroupRecheck? || pc.GroupUndo? || pc.FinalCheck? || pc.FinalRelease?
    || pc.Publish?
  }

  ghost predicate Drained(s: State) {
    && s.mem.shutdown
    && (forall c :: 0 <= c < |s.calls| ==> !Cleared(s.calls[c].pc))
    && (forall i :: 0 <= i < |s.tasks| ==> Finished(s.tasks[i].phase))
  }

  predicate Leaving(pc: WorkerPc) {
    pc == Exited || pc == Retract(Leave)
  }

  /** A worker that saw the shutdown flag can rely on it, and one that leaves leaves a drained scheduler. */
  ghost predicate ExitsDrained(s: State) {
    && (forall w :: 0 <= w < |s.workers| && s.workers[w].pc.LoadDrained? ==> s.mem.shutdown)
    && (forall w :: 0 <= w < |s.workers| && Leaving(s.workers[w].pc) ==> Drained(s))
  }

  /** Reading zero in flight after shutdown is enough: nobody holds a slot, so nobody is cleared to publish. */
  lemma ZeroMeansDrained(s: State)
    requires InBalance(s) && s.mem.shutdown && s.mem.inFlight == 0
    ensures Drained(s)
  {
    ZeroMeansFinished(s);
    forall c | 0 <= c < |s.calls| ensures !Cleared(s.calls[c].pc) { assert !HasSlot(s.calls[c].pc); }
  }

  lemma SubmitDrained(s: State, c: nat, ch: Choice)
    requires Drained(s) && Enabled(s, Submit(c, ch))
    ensures var s' := Next(s, Submit(c, ch)); Drained(s') && s'.tasks == s.tasks
  {
  }

  lemma WorkDrained(s: State, w: nat, ch: Choice)
    requires InCustody(s) && Drained(s) && Enabled(s, Work(w, ch))
    ensures var s' := Next(s, Work(w, ch)); Drained(s') && |s'.tasks| == |s.tasks|
  {
    FollowEffect(s, w, ch);
    HandStep(s.workers[w], w, |s.workers|, s.mem, ch, QueuedIds(s.tasks));
  }

  /** Once drained, always drained, and no task is ever published again. */
  lemma DrainedForever(s: State, e: Event, s': State)
    requires InCustody(s) && Drained(s) && Step(s, e, s')
    ensures Drained(s') && |s'.tasks| == |s.tasks|
  {
    match e
    case Submit(c, ch) => SubmitDrained(s, c, ch);
    case Work(w, ch) => WorkDrained(s, w, ch);
    case _ =>
  }

  lemma ShutdownForever(s: State, e: Event, s': State)
    requires Step(s, e, s') && s.mem.shutdown
    ensures s'.mem.shutdown
  {
  }

  lemma DecisionStep(me: Worker, m: Memory, ch: Choice, w: nat, n: nat, queued: set<nat>)
    ensures var pc' := WorkerAfter(me, w, n, Exec(m, WorkerOp(w, me.pc), ch).1, queued).pc;
            && (pc'.LoadDrained? ==> m.shutdown)
            && (Leaving(pc') ==> Leaving(me.pc) || (me.pc.LoadDrained? && m.inFlight == 0))
  {
    if me.pc.Pop? { SearchGoesOn(me, w, n, Exec(m, WorkerOp(w, me.pc), ch).1, queued); }
  }

  /** A probe never leads straight to the second load or out of the loop. */
  lemma SearchGoesOn(me: Worker, w: nat, n: nat, r: Response, queued: set<nat>)
    requires me.pc.Pop?
    ensures var pc' := WorkerAfter(me, w, n, r, queued).pc; !pc'.LoadDrained? && !Leaving(pc')
  {
    if AtPeers(me.pc) {
      match me.pc.probe
      case Steal(_) =>
      case _ =>
    }
  }

  /** The two loads of `should_stop` are separate steps, yet together they are conclusive. */
  lemma StopDecision(s: State, w: nat, ch: Choice)
    requires InBalance(s) && ExitsDrained(s) && Enabled(s, Work(w, ch))
    ensures var pc, pc' := s.workers[w].pc, Next(s, Work(w, ch)).workers[w].pc;
            && (pc'.LoadDrained? ==> s.mem.shutdown)
            && (Leaving(pc') ==> Drained(s))
  {
    DecisionStep(s.workers[w], s.mem, ch, w, |s.workers|, QueuedIds(s.tasks));
    if s.workers[w].pc.LoadDrained? && s.mem.inFlight == 0 { ZeroMeansDrained(s); }
  }

  lemma StepExits(s: State, e: Event, s': State)
    requires InCustody(s) && InBalance(s) && ExitsDrained(s) && Step(s, e, s')
    ensures ExitsDrained(s')
  {
    forall v | 0 <= v < |s'.workers|
      ensures s'.workers[v].pc.LoadDrained? ==> s'.mem.shutdown
      ensures Leaving(s'.workers[v].pc) ==> Drained(s')
    {
      if e.Work? { StopDecision(s, e.w, e.ch); }
      if s'.workers[v].pc.LoadDrained? { ShutdownForever(s, e, s'); }
      if Leaving(s'.workers[v].pc) { DrainedForever(s, e, s'); }
    }
  }

  lemma {:induction false} RunExits(r: seq<State>, es: seq<Event>, i: nat)
    requires Run(r, es) && Init(r[0]) && i < |r|
    ensures ExitsDrained(r[i])
  {
    if i > 0 {
      RunExits(r, es, i - 1);
      RunInvariant(r, es, i - 1);
      assert StepAt(r, es, i - 1);
      StepExits(r[i - 1], es[i - 1], r[i]);
    }
  }

  lemma {:induction false} StaysDrained(r: seq<State>, es: seq<Event>, i: nat, j: nat)
    requires Run(r, es) && Init(r[0]) && i <= j < |r| && Drained(r[i])
    ensures Drained(r[j]) && |r[j].tasks| == |r[i].tasks|
  {
    if i < j {
      StaysDrained(r, es, i, j - 1);
      RunInvariant(r, es, j - 1);
      assert StepAt(r, es, j - 1);
      DrainedForever(r[j - 1], es[j - 1], r[j]);
    }
  }

  /** In a drained state nothing is queued, and the only tasks in a hand have given their slot back. */
  lemma DrainedEmpty(s: State)
    requires InCustody(s) && InBalance(s) && Drained(s)
    ensures s.mem.q.high == [] && s.mem.q.normal == [] && s.mem.q.low == []
    ensures forall v :: 0 <= v < |s.mem.q.deques| ==> s.mem.q.deques[v] == []
    ensures forall w :: 0 <= w < |s.workers| && Hand(s.workers[w].pc).Some? ==> s.workers[w].pc.ReleaseGroup?
  {
    SumConstant(s.tasks, Waiting, 0);
    EmptyQueues(s.mem.q);
    forall w | 0 <= w < |s.workers| && Hand(s.workers[w].pc).Some? ensures s.workers[w].pc.ReleaseGroup? {
      assert Holds(s.tasks, w, Hand(s.workers[w].pc));
    }
  }

  /**
   * Drained exit: from the moment any worker has left its loop, in every later state every queue is empty, every
   * task ever published has had its callback run and is counted as completed, no submission is past its checks
   * and unpublished, and the set of published tasks no longer grows, even if late submissions raise the in-flight
   * count before rolling back.
   */
  lemma DrainedExit(r: seq<State>, es: seq<Event>, i: nat, j: nat, w: nat)
    requires Run(r, es) && Init(r[0]) && i <= j < |r|
    requires w < |r[i].workers| && r[i].workers[w].pc == Exited
    ensures var s := r[j];
            && s.mem.q.high == [] && s.mem.q.normal == [] && s.mem.q.low == []
            && (forall v :: 0 <= v < |s.mem.q.deques| ==> s.mem.q.deques[v] == [])
            && (forall id :: 0 <= id < |s.tasks| ==> s.tasks[id].runs == 1)
            && s.mem.stats.completed == |s.tasks| == |r[i].tasks|
            && (forall c :: 0 <= c < |s.calls| ==> !Cleared(s.calls[c].pc))
  {
    RunExits(r, es, i);
    StaysDrained(r, es, i, j);
    RunInvariant(r, es, j);
    var s := r[j];
    DrainedEmpty(s);
    SumConstant(s.tasks, Counted, 1);
    forall id | 0 <= id < |s.tasks| ensures s.tasks[id].runs == 1 { assert RecordOk(s.mem, s.tasks[id], id); }
  }
}
