/**
 * The code of each kind of thread as a program counter: which atomic operation comes next, and where the answer leads.
 * Each program counter stands just before the operation it names.
 */
module Programs {
  import opened Queues
  import opened Memory
  import opened Victims

  const HIGH_BURST_LIMIT: nat := 32

  // ---------- A submission: push_internal with all it calls inlined ----------

  datatype Outcome = Accepted(id: nat) | Stopped | QueueFull

  datatype CallPc =
    | Start
    | Reserve | LoadCount | Swap(current: int) | NoteFull
    | Recheck | Release
    | GroupCheck | GroupAdd | GroupRecheck | GroupUndo
    | FinalCheck | FinalRelease | FinalUndo
    | Publish | NoteSubmit(id: nat) | WakeCheck(id: nat) | Notify(id: nat)
    | Returned(outcome: Outcome)

  datatype Call = Call(priority: Priority, group: Option<nat>, pc: CallPc)

  function CallOp(call: Call, nextId: nat): Op {
    match call.pc
    case Start => LoadShutdown
    case Reserve => AddInFlight
    case LoadCount => LoadInFlight
    case Swap(current) => SwapInFlight(current)
    case NoteFull => Count(RejectedFull)
    case Recheck => LoadShutdown
    case Release => SubInFlight
    case GroupCheck => if call.group.Some? then LoadClosed(call.group.value) else Local
    case GroupAdd => if call.group.Some? then AddGroup(call.group.value) else Local
    case GroupRecheck => if call.group.Some? then LoadClosed(call.group.value) else Local
    case GroupUndo => if call.group.Some? then SubGroup(call.group.value) else Local
    case FinalCheck => LoadShutdown
    case FinalRelease => SubInFlight
    case FinalUndo => if call.group.Some? then SubGroup(call.group.value) else Local
    case Publish => Push(Task(nextId, call.priority, call.group))
    case NoteSubmit(_) => Count(Submitted)
    case WakeCheck(_) => LoadSleeping
    case Notify(_) => NotifyOne
    case Returned(_) => Local
  }

  /** The capacity test at the head of the reservation loop. */
  function TrySwap(capacity: nat, current: int): CallPc {
    if current >= capacity then NoteFull else Swap(current)
  }

  function CallAfter(call: Call, capacity: nat, nextId: nat, r: Response): CallPc {
    match call.pc
    case Start =>
      if r == Flag(true) then Returned(Stopped) else if capacity == 0 then Reserve else LoadCount
    case Reserve => Recheck
    case LoadCount => if r.Value? then TrySwap(capacity, r.n) else LoadCount
    case Swap(current) =>
      if !r.Swapped? then Swap(current) else if r.ok then Recheck else TrySwap(capacity, r.actual)
    case NoteFull => Returned(QueueFull)
    case Recheck =>
      if r == Flag(true) then Release else if call.group.Some? then GroupCheck else FinalCheck
    case Release => Returned(Stopped)
    case GroupCheck => if r == Flag(true) then Release else GroupAdd
    case GroupAdd => GroupRecheck
    case GroupRecheck => if r == Flag(true) then GroupUndo else FinalCheck
    case GroupUndo => Release
    case FinalCheck => if r == Flag(true) then FinalRelease else Publish
    case FinalRelease => if call.group.Some? then FinalUndo else Returned(Stopped)
    case FinalUndo => Returned(Stopped)
    case Publish => NoteSubmit(nextId)
    case NoteSubmit(id) => WakeCheck(id)
    case WakeCheck(id) => if r == Value(0) then Returned(Accepted(id)) else Notify(id)
    case Notify(id) => Returned(Accepted(id))
    case Returned(_) => call.pc
  }

  // ---------- A worker: worker_main with pop_for_worker, execute_task and should_stop inlined ----------

  /** The three places where the loop looks for work: before the lock, under it, and once counted as sleeping. */
  datatype Site = Fast | Locked | Asleep

  datatype Probe =
    | Enter
    | Yield | FairNormal | FairLow
    | TryLocal | TryHigh | TryNormal | TryLow
    | Choose | Attempt(victims: seq<nat>) | Steal(victims: seq<nat>) | Missed(victims: seq<nat>)

  datatype AfterRetract = RunIt(task: Task) | Loop | Leave

  datatype WorkerPc =
    | Pop(site: Site, probe: Probe)
    | Stolen(site: Site, task: Task)
    | LoadStop(site: Site) | LoadDrained(site: Site)
    | GoSleep | Blocked | Retract(next: AfterRetract)
    | Running(task: Task) | NoteDone(task: Task) | ReleaseSlot(task: Task) | ReleaseGroup(task: Task)
    | Exited

  /**
   * The worker's own variables. The fields from `selected` on are history: no step looks at them.
   * `selected` lists the tasks taken so far, `detours` counts the fairness paths entered, `dry` those that found both
   * injectors empty, `broken` the HIGH selections whose streak a lower task ended outside a fairness path, and
   * `snapshot` holds the tasks queued when the current search began.
   */
  datatype Worker = Worker(pc: WorkerPc, streak: nat, cursor: nat,
                           selected: seq<Task>, detours: nat, fairRetries: nat, dry: nat, broken: nat, peerRetries: nat,
                           snapshot: set<nat>)

  const NEW_WORKER := Worker(Pop(Fast, Enter), 0, 0, [], 0, 0, 0, 0, 0, {})

  /** A fairness yield has been counted and the fairness path is not yet decided. */
  predicate InDetour(pc: WorkerPc) {
    pc.Pop? && (pc.probe.FairNormal? || pc.probe.FairLow?)
  }

  function ProbeOp(w: nat, probe: Probe): Op {
    match probe
    case Enter => Local
    case Yield => Count(Yields)
    case FairNormal => Batch(Normal, w)
    case FairLow => Batch(Low, w)
    case TryLocal => PopLocal(w)
    case TryHigh => Batch(High, w)
    case TryNormal => Batch(Normal, w)
    case TryLow => Batch(Low, w)
    case Choose => Local
    case Attempt(_) => Count(Attempted)
    case Steal(victims) => if victims == [] then Local else StealFrom(victims[0])
    case Missed(_) => Count(Failures)
  }

  function WorkerOp(w: nat, pc: WorkerPc): Op {
    match pc
    case Pop(_, probe) => ProbeOp(w, probe)
    case Stolen(_, _) => Count(Succeeded)
    case LoadStop(_) => LoadShutdown
    case LoadDrained(_) => LoadInFlight
    case GoSleep => AddSleeping
    case Blocked => Local
    case Retract(_) => SubSleeping
    case Running(_) => Local
    case NoteDone(_) => Count(Completed)
    case ReleaseSlot(_) => SubInFlight
    case ReleaseGroup(t) => if t.group.Some? then SubGroup(t.group.value) else Local
    case Exited => Local
  }

  /** `record_task` */
  function Streak(streak: nat, t: Task): nat {
    if t.priority == High then streak + 1 else 0
  }

  function Selecting(me: Worker, t: Task): Worker {
    me.(streak := Streak(me.streak, t), selected := me.selected + [t],
        broken := if t.priority != High && !InDetour(me.pc) then me.broken + me.streak else me.broken)
  }

  function Begin(site: Site, t: Task): WorkerPc {
    if site == Asleep then Retract(RunIt(t)) else Running(t)
  }

  function Again(site: Site): WorkerPc {
    if site == Asleep then Retract(Loop) else Pop(Fast, Enter)
  }

  function Onwards(site: Site): WorkerPc {
    match site
    case Fast => Pop(Locked, Enter)
    case Locked => GoSleep
    case Asleep => Blocked
  }

  function NextVictim(site: Site, victims: seq<nat>): WorkerPc {
    if victims == [] then LoadStop(site) else Pop(site, Attempt(victims))
  }

  /** The usual reaction to a queue operation: take the task, start over on `Retry`, go on when there was nothing. */
  function React(me: Worker, site: Site, r: Response, whenEmpty: WorkerPc): Worker {
    match r
    case Got(t) => Selecting(me, t).(pc := Begin(site, t))
    case Retry => me.(pc := Again(site))
    case _ => me.(pc := whenEmpty)
  }

  function ProbeAfter(me: Worker, w: nat, n: nat, site: Site, probe: Probe, r: Response, queued: set<nat>): Worker {
    match probe
    case Enter =>
      me.(pc := Pop(site, if me.streak >= HIGH_BURST_LIMIT then Yield else TryLocal), snapshot := queued)
    case Yield => me.(pc := Pop(site, FairNormal), detours := me.detours + 1)
    case FairNormal =>
      React(if r.Retry? then me.(fairRetries := me.fairRetries + 1) else me, site, r, Pop(site, FairLow))
    case FairLow =>
      var me' := if r.Retry? then me.(fairRetries := me.fairRetries + 1)
                 else if r.Got? then me
                 else me.(streak := 0, dry := me.dry + 1);
      React(me', site, r, Pop(site, TryLocal))
    case TryLocal => React(me, site, r, Pop(site, TryHigh))
    case TryHigh => React(me, site, r, Pop(site, TryNormal))
    case TryNormal => React(me, site, r, Pop(site, TryLow))
    case TryLow => React(me, site, r, Pop(site, Choose))
    case Choose =>
      me.(pc := NextVictim(site, VictimList(n, w, me.cursor)), cursor := if n <= 1 then me.cursor else me.cursor + 1)
    case Attempt(victims) => me.(pc := Pop(site, Steal(victims)))
    case Steal(victims) =>
      if r.Got? then Selecting(me, r.t).(pc := Stolen(site, r.t))
      else if r.Retry? then me.(pc := Again(site), peerRetries := me.peerRetries + 1)
      else me.(pc := Pop(site, Missed(victims)))
    case Missed(victims) => me.(pc := NextVictim(site, if victims == [] then [] else victims[1..]))
  }

  function WorkerAfter(me: Worker, w: nat, n: nat, r: Response, queued: set<nat>): Worker {
    match me.pc
    case Pop(site, probe) => ProbeAfter(me, w, n, site, probe, r, queued)
    case Stolen(site, t) => me.(pc := Begin(site, t))
    case LoadStop(site) => me.(pc := if r == Flag(true) then LoadDrained(site) else Onwards(site))
    case LoadDrained(site) =>
      me.(pc := if r != Value(0) then Onwards(site) else if site == Asleep then Retract(Leave) else Exited)
    case GoSleep => me.(pc := Pop(Asleep, Enter))
    case Blocked => me.(pc := Retract(Loop))
    case Retract(next) =>
      me.(pc := match next case RunIt(t) => Running(t) case Loop => Pop(Fast, Enter) case Leave => Exited)
    case Running(t) => me.(pc := NoteDone(t))
    case NoteDone(t) => me.(pc := ReleaseSlot(t))
    case ReleaseSlot(t) => me.(pc := if t.group.Some? then ReleaseGroup(t) else Pop(Fast, Enter))
    case ReleaseGroup(_) => me.(pc := Pop(Fast, Enter))
    case Exited => me
  }

  // ---------- A waiter: Scheduler::wait and TaskGroup::wait ----------

  datatype Target = Everything | OfGroup(g: nat)

  /** `Released(until)` also remembers, as history, how many tasks had been published when the zero was read. */
  datatype WaiterPc = Check | Parked | Released(until: nat)

  /** `before` is history: how many tasks had been published when the wait was called. */
  datatype Waiter = Waiter(target: Target, pc: WaiterPc, before: nat)

  function WaiterOp(x: Waiter): Op {
    if !x.pc.Check? then Local
    else match x.target case Everything => LoadInFlight case OfGroup(g) => LoadGroup(g)
  }

  function WaiterAfter(x: Waiter, r: Response, published: nat): Waiter {
    match x.pc
    case Check => x.(pc := if r == Value(0) then Released(published) else Parked)
    case Parked => x.(pc := Check)
    case Released(_) => x
  }
}
