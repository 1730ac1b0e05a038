/**
 * The worker as structured code over the same shared object: the search for work, the execution of a task and the main
 * loop with its three searches, kept in step with the program counter of the transition system.
 */
module WorkerCode {
  import opened Queues
  import opened Memory
  import opened Programs
  import opened Victims
  import opened Machine
  import opened Draining
  import opened Ledger
  import opened Searching
  import opened Surroundings
  import opened Sleeping
  import opened SchedulerCode

  datatype PopResult = Found(t: Task) | Nothing | TryAgain

  /** How many HIGH tasks in a row this worker has selected. */
  class PriorityState {
    var highStreak: nat

    constructor ()
      ensures highStreak == 0
    {
      highStreak := 0;
    }

    predicate FairnessDue()
      reads this
    {
      highStreak >= HIGH_BURST_LIMIT
    }

    method RecordTask(t: Task)
      modifies this
      ensures highStreak == if t.priority == High then old(highStreak) + 1 else 0
    {
      match t.priority
      case High => highStreak := highStreak + 1;
      case Normal => highStreak := 0;
      case Low => highStreak := 0;
    }

    method Reset()
      modifies this
      ensures highStreak == 0
    {
      highStreak := 0;
    }
  }

  class WorkerThread {
    const sys: Scheduler
    const w: nat
    const priority: PriorityState
    const steal: StealState
    /** The atomic operations this worker has issued so far. */
    ghost var issued: seq<Op>

    constructor (sys: Scheduler, w: nat)
      requires sys.Valid() && w < |sys.st.workers|
      requires sys.st.workers[w].streak == 0 && sys.st.workers[w].cursor == 0
      ensures this.sys == sys && this.w == w && fresh(priority) && fresh(steal)
      ensures InStep() && issued == []
    {
      this.sys, this.w, issued := sys, w, [];
      priority := new PriorityState();
      steal := new StealState(w, |sys.st.workers|);
    }

    /** The shared object is in a reachable state and knows this worker. */
    ghost predicate Present()
      reads this, sys
    {
      sys.Valid() && w < |sys.st.workers|
    }

    ghost function Me(): Worker
      requires Present()
      reads this, sys
    {
      sys.st.workers[w]
    }

    ghost predicate CursorInStep()
      reads this, sys, steal
    {
      Present() && steal.cursor == Me().cursor && steal.workerId == w && steal.workerCount == |sys.st.workers|
    }

    /** The worker's own objects agree with its variables in the transition system. */
    ghost predicate InStep()
      reads this, sys, priority, steal
    {
      CursorInStep() && priority.highStreak == Me().streak
    }

    /** One atomic operation of this worker, after any number of steps of other threads. */
    method Atomic(op: Op) returns (r: Response)
      requires Present() && Me().pc != Exited && op == WorkerOp(w, Me().pc)
      modifies this`issued, sys
      ensures Present() && sys.Later() && Answers(op, r)
      ensures Me() == WorkerAfter(old(Me()), w, |sys.st.workers|, r, Me().snapshot)
      ensures issued == old(issued) + [op] && |sys.events| > |old(sys.events)|
      ensures Me().snapshot == if Starts(old(Me().pc)) then QueuedIds(sys.states[|sys.events| - 1].tasks)
                               else old(Me().snapshot)
    {
      sys.Interfere(Runner(w));
      var ch := AnyChoice(sys.st.cfg.batch);
      r := Exec(sys.st.mem, op, ch).1;
      AnswersExec(sys.st.mem, op, ch);
      SnapshotIsQueued(Me(), w, |sys.st.workers|, r, QueuedIds(sys.st.tasks));
      if !Starts(Me().pc) { SnapshotProgram(Me(), w, |sys.st.workers|, r, QueuedIds(sys.st.tasks)); }
      sys.Perform(Work(w, ch));
      issued := issued + [op];
    }

    /** `try_priority_queue` on the injector the search has reached; `None` means it was empty. */
    method TryPriorityQueue(p: Priority) returns (res: Option<PopResult>)
      requires InStep() && Me().pc.Pop? && WorkerOp(w, Me().pc) == Batch(p, w)
      modifies this`issued, sys, priority
      ensures CursorInStep() && sys.Later() && Me().snapshot == old(Me().snapshot)
      ensures issued == old(issued) + [Batch(p, w)]
      ensures res.Some? ==> !res.value.Nothing? && InStep() && Ended(old(Me().pc.site), res.value, Me().pc)
      ensures res.None? ==>
                && Me() == WorkerAfter(old(Me()), w, |sys.st.workers|, Empty, Me().snapshot)
                && priority.highStreak == old(priority.highStreak)
    {
      var r := Atomic(Batch(p, w));
      match r {
        case Got(t) =>
          priority.RecordTask(t);
          return Some(Found(t));
        case Retry =>
          return Some(TryAgain);
        case Empty =>
          return None;
      }
    }

    /** Where the main loop stands once a search at `site` has ended with `res`. */
    static predicate Ended(site: Site, res: PopResult, pc: WorkerPc) {
      match res
      case Found(t) => pc == Begin(site, t)
      case Nothing => pc == LoadStop(site)
      case TryAgain => pc == Again(site)
    }

    /** `steal_from_peers`: the loop over the victims, with its statistics. */
    method StealFromPeers() returns (res: PopResult)
      requires InStep() && Me().pc.Pop? && Me().pc.probe.Choose?
      modifies this`issued, sys, priority, steal
      ensures InStep() && sys.Later() && Ended(old(Me().pc.site), res, Me().pc) && Me().snapshot == old(Me().snapshot)
    {
      ghost var site := Me().pc.site;
      var victims := steal.RoundRobinVictims();
      var _ := Atomic(Local);
      var i := 0;
      while i < |victims|
        invariant 0 <= i <= |victims|
        invariant InStep() && sys.Later() && Me().pc == NextVictim(site, victims[i..])
        invariant Me().snapshot == old(Me().snapshot)
      {
        assert victims[i..][1..] == victims[i + 1..];
        var found := ProbeVictim(victims[i]);
        if found.Some? {
          return found.value;
        }
        i := i + 1;
      }
      return Nothing;
    }

    /** The statistic that records how an attempt ended; a retry is not recorded. */
    static function Tally(res: Option<PopResult>): seq<Op> {
      if res.None? then [Count(Failures)] else if res.value.Found? then [Count(Succeeded)] else []
    }

    /** One victim: count the attempt, steal, count how it ended. */
    method ProbeVictim(victim: nat) returns (res: Option<PopResult>)
      requires InStep() && Me().pc.Pop? && Me().pc.probe.Attempt?
      requires Me().pc.probe.victims != [] && Me().pc.probe.victims[0] == victim
      modifies this`issued, sys, priority
      ensures InStep() && sys.Later() && Me().snapshot == old(Me().snapshot)
      ensures res.Some? ==> !res.value.Nothing? && Ended(old(Me().pc.site), res.value, Me().pc)
      ensures res.None? ==> Me().pc == NextVictim(old(Me().pc.site), old(Me().pc.probe.victims)[1..])
      ensures issued == old(issued) + [Count(Attempted), StealFrom(victim)] + Tally(res)
    {
      ghost var site, victims := Me().pc.site, Me().pc.probe.victims;
      var _ := Atomic(Count(Attempted));
      assert Me().pc == Pop(site, Steal(victims));
      var r := Atomic(StealFrom(victim));
      assert Me().pc == if r.Got? then Stolen(site, r.t)
                        else if r.Retry? then Again(site)
                        else Pop(site, Missed(victims));
      match r {
        case Got(t) =>
          var _ := Atomic(Count(Succeeded));
          priority.RecordTask(t);
          return Some(Found(t));
        case Retry =>
          return Some(TryAgain);
        case Empty =>
          var _ := Atomic(Count(Failures));
          return None;
      }
    }

    /** The fairness path of `pop_for_worker`: NORMAL, then LOW, then forget the streak. */
    method Detour() returns (res: Option<PopResult>)
      requires InStep() && Me().pc.Pop? && Me().pc.probe.Yield?
      modifies this`issued, sys, priority
      ensures InStep() && sys.Later() && Me().snapshot == old(Me().snapshot)
      ensures res.Some? ==> !res.value.Nothing? && Ended(old(Me().pc.site), res.value, Me().pc)
      ensures res.None? ==> Me().pc == Pop(old(Me().pc.site), TryLocal) && priority.highStreak == 0
      ensures old(issued) + [Count(Yields), Batch(Normal, w)] <= issued
      ensures issued <= old(issued) + [Count(Yields), Batch(Normal, w), Batch(Low, w)]
      ensures res.None? ==> issued == old(issued) + [Count(Yields), Batch(Normal, w), Batch(Low, w)]
    {
      ghost var site := Me().pc.site;
      var _ := Atomic(Count(Yields));
      assert Me().pc == Pop(site, FairNormal);
      res := TryPriorityQueue(Normal);
      if res.Some? {
        return;
      }
      assert Me().pc == Pop(site, FairLow);
      res := TryPriorityQueue(Low);
      if res.Some? {
        return;
      }
      priority.Reset();
    }

    /** The global injectors in their normal order, then the peers. */
    method GlobalThenPeers() returns (res: PopResult)
      requires InStep() && Me().pc.Pop? && Me().pc.probe.TryHigh?
      modifies this`issued, sys, priority, steal
      ensures InStep() && sys.Later() && Ended(old(Me().pc.site), res, Me().pc) && Me().snapshot == old(Me().snapshot)
    {
      ghost var site := Me().pc.site;
      var got := TryPriorityQueue(High);
      if got.Some? {
        return got.value;
      }
      assert Me().pc == Pop(site, TryNormal);
      got := TryPriorityQueue(Normal);
      if got.Some? {
        return got.value;
      }
      assert Me().pc == Pop(site, TryLow);
      got := TryPriorityQueue(Low);
      if got.Some? {
        return got.value;
      }
      assert Me().pc == Pop(site, Choose);
      res := StealFromPeers();
    }

    /** `pop_for_worker`. When it finds nothing, no task that was queued at the call is still queued. */
    method PopForWorker() returns (res: PopResult)
      requires InStep() && Starts(Me().pc)
      modifies this`issued, sys, priority, steal
      ensures InStep() && sys.Later() && Ended(old(Me().pc.site), res, Me().pc)
      ensures res.Nothing? ==>
                forall id :: 0 <= id < |old(sys.st.tasks)| && old(sys.st.tasks)[id].phase == Queued ==>
                  id < |sys.st.tasks| && sys.st.tasks[id].phase != Queued
    {
      ghost var called := |sys.events|;
      var _ := Atomic(Local);
      ghost var started := |sys.events| - 1;
      res := Search();
      if res.Nothing? {
        forall id | 0 <= id < |old(sys.st.tasks)| && old(sys.st.tasks)[id].phase == Queued
          ensures id < |sys.st.tasks| && sys.st.tasks[id].phase != Queued
        {
          NothingIsSound(sys.states, sys.events, called, started, w, id);
        }
      }
    }

    /** The search itself: the fairness path if it is due, the own deque, then the rest. */
    method Search() returns (res: PopResult)
      requires InStep() && Me().pc.Pop?
      requires Me().pc.probe == if priority.FairnessDue() then Yield else TryLocal
      modifies this`issued, sys, priority, steal
      ensures InStep() && sys.Later() && Ended(old(Me().pc.site), res, Me().pc) && Me().snapshot == old(Me().snapshot)
    {
      if priority.FairnessDue() {
        var got := Detour();
        if got.Some? {
          return got.value;
        }
      }
      var r := Atomic(PopLocal(w));
      if r.Got? {
        priority.RecordTask(r.t);
        return Found(r.t);
      }
      res := GlobalThenPeers();
    }

    /** `task_completed`: the statistics first, then the slot. */
    method TaskCompleted(t: Task)
      requires InStep() && Me().pc == NoteDone(t)
      modifies this`issued, sys
      ensures InStep() && sys.Later() && Me().pc == if t.group.Some? then ReleaseGroup(t) else Pop(Fast, Enter)
      ensures issued == old(issued) + [Count(Completed), SubInFlight]
    {
      var _ := Atomic(Count(Completed));
      assert Me().pc == ReleaseSlot(t);
      var _ := Atomic(SubInFlight);
    }

    /** `execute_task`: the callback, the statistics, the scheduler's slot, the group's count, in that order. */
    method ExecuteTask(t: Task)
      requires InStep() && Me().pc == Running(t)
      modifies this`issued, sys
      ensures InStep() && sys.Later() && Me().pc == Pop(Fast, Enter)
      ensures issued == old(issued) + [Local, Count(Completed), SubInFlight]
                        + if t.group.Some? then [SubGroup(t.group.value)] else []
    {
      var _ := Atomic(Local);
      assert Me().pc == NoteDone(t);
      TaskCompleted(t);
      assert issued == old(issued) + [Local, Count(Completed), SubInFlight];
      if t.group.Some? {
        assert Me().pc == ReleaseGroup(t);
        var _ := Atomic(SubGroup(t.group.value));
      }
    }

    /** `should_stop`: two separate loads. */
    method ShouldStop() returns (stop: bool)
      requires InStep() && Me().pc.LoadStop?
      modifies this`issued, sys
      ensures InStep() && sys.Later()
      ensures var site := old(Me().pc.site);
              Me().pc == if !stop then Onwards(site) else if site == Asleep then Retract(Leave) else Exited
    {
      var r := Atomic(LoadShutdown);
      if !r.b {
        return false;
      }
      r := Atomic(LoadInFlight);
      return r.n == 0;
    }

    /**
     * One turn of the main loop: the fast search, the search under the lock, and the search once counted as sleeping,
     * each followed by the decision to stop; then the condvar.
     */
    method Turn() returns (left: bool)
      requires InStep() && Me().pc == Pop(Fast, Enter)
      modifies this`issued, sys, priority, steal
      ensures InStep() && sys.Later()
      ensures Me().pc == if left then Exited else Pop(Fast, Enter)
    {
      var done := Round();
      if done.Some? {
        return done.value;
      }
      done := Round();
      if done.Some? {
        return done.value;
      }
      left := Sleep();
    }

    /** A search outside the sleeping section and what follows: run the task, start over, leave, or go on (`None`). */
    method Round() returns (done: Option<bool>)
      requires InStep() && Starts(Me().pc) && Me().pc.site != Asleep
      modifies this`issued, sys, priority, steal
      ensures InStep() && sys.Later()
      ensures Me().pc == if done.None? then Onwards(old(Me().pc.site))
                         else if done.value then Exited
                         else Pop(Fast, Enter)
    {
      var res := PopForWorker();
      if !res.Nothing? {
        if res.Found? {
          ExecuteTask(res.t);
        }
        return Some(false);
      }
      var stop := ShouldStop();
      return if stop then Some(true) else None;
    }

    /**
     * The last part of a turn: announce sleep, look once more, and retract on each of the four ways out. If it blocks,
     * then no task that was queued at the call is still queued.
     */
    method Sleep() returns (left: bool)
      requires InStep() && Me().pc == GoSleep
      modifies this`issued, sys, priority, steal
      ensures InStep() && sys.Later()
      ensures Me().pc == if left then Exited else Pop(Fast, Enter)
      ensures forall k :: |old(sys.events)| <= k < |sys.states| && BlockedIn(sys.states[k]) ==>
                AllTaken(sys.states, |old(sys.events)|, k)
    {
      ghost var called := |sys.events|;
      left := Nap();
      forall k | called <= k < |sys.states| && BlockedIn(sys.states[k]) ensures AllTaken(sys.states, called, k) {
        BlocksOnNothing(sys.states, sys.events, called, k, w);
      }
    }

    method Nap() returns (left: bool)
      requires InStep() && Me().pc == GoSleep
      modifies this`issued, sys, priority, steal
      ensures InStep() && sys.Later()
      ensures Me().pc == if left then Exited else Pop(Fast, Enter)
    {
      var _ := Atomic(AddSleeping);
      var res := PopForWorker();
      if !res.Nothing? {
        Resume(res);
        return false;
      }
      left := Doze();
    }

    ghost predicate BlockedIn(s: State) {
      w < |s.workers| && s.workers[w].pc == Blocked
    }

    /** The search after announcing sleep was empty: leave, or block on the condvar; retract either way. */
    method Doze() returns (left: bool)
      requires InStep() && Me().pc == LoadStop(Asleep)
      modifies this`issued, sys
      ensures InStep() && sys.Later()
      ensures Me().pc == if left then Exited else Pop(Fast, Enter)
    {
      left := ShouldStop();
      if left {
        var _ := Atomic(SubSleeping);
        return;
      }
      var _ := Atomic(Local);
      assert Me().pc == Retract(Loop);
      var _ := Atomic(SubSleeping);
    }

    /** The search after announcing sleep was not empty: retract, then run the task or start over. */
    method Resume(res: PopResult)
      requires InStep() && !res.Nothing? && Ended(Asleep, res, Me().pc)
      modifies this`issued, sys
      ensures InStep() && sys.Later() && Me().pc == Pop(Fast, Enter)
    {
      var _ := Atomic(SubSleeping);
      if res.Found? {
        ExecuteTask(res.t);
      }
    }

    /**
     * `worker_main`, cut off after `turns` turns. When it returns because the worker left, the scheduler is drained:
     * nothing is queued anywhere, and every task ever published has had its callback run and is counted.
     */
    method WorkerMain(turns: nat) returns (left: bool)
      requires InStep() && Me().pc == Pop(Fast, Enter)
      modifies this`issued, sys, priority, steal
      ensures InStep() && sys.Later()
      ensures Me().pc == if left then Exited else Pop(Fast, Enter)
      ensures left ==>
                && sys.st.mem.q.high == [] && sys.st.mem.q.normal == [] && sys.st.mem.q.low == []
                && (forall v :: 0 <= v < |sys.st.mem.q.deques| ==> sys.st.mem.q.deques[v] == [])
                && (forall id :: 0 <= id < |sys.st.tasks| ==> sys.st.tasks[id].runs == 1)
                && sys.st.mem.stats.completed == |sys.st.tasks|
    {
      left := false;
      var i := 0;
      while i < turns && !left
        invariant InStep() && sys.Later() && Me().pc == if left then Exited else Pop(Fast, Enter)
        decreases turns - i
      {
        left := Turn();
        i := i + 1;
      }
      if left {
        DrainedExit(sys.states, sys.events, |sys.events|, |sys.events|, w);
      }
    }
  }

  /**
   * A task queued in state i is no longer queued at the end of a run that ends with an empty search of worker w which
   * started at event k.
   */
  lemma NothingIsSound(r: seq<State>, es: seq<Event>, i: nat, k: nat, w: nat, id: nat)
    requires Run(r, es) && Init(r[0]) && i <= k < |r| && id < |r[i].tasks| && r[i].tasks[id].phase == Queued
    requires w < |r[|es|].workers| && r[|es|].workers[w].pc.LoadStop?
    requires r[|es|].workers[w].snapshot == QueuedIds(r[k].tasks)
    ensures id < |r[|es|].tasks| && r[|es|].tasks[id].phase != Queued
  {
    StillThere(r, es, i, k, id);
    if r[k].tasks[id].phase != Queued {
      StaysTaken(r, es, k, |es|, id);
    } else {
      RunInvariant(r, es, |es|);
      RunSearches(r, es, |es|);
      EmptyMeansTaken(r[|es|], w, id);
    }
  }

  /** A worker's step depends on the queued tasks only through the snapshot it stores. */
  lemma SnapshotIsQueued(me: Worker, w: nat, n: nat, r: Response, queued: set<nat>)
    ensures var me' := WorkerAfter(me, w, n, r, queued); me' == WorkerAfter(me, w, n, r, me'.snapshot)
  {
  }
}
