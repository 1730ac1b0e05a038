/** The whole scheduler as a transition system: any number of submissions, workers, groups and waiters. */
module Machine {
  import opened Queues
  import opened Memory
  import opened Programs

  /** How far a worker has got with the task in its hand. */
  datatype Stage = Taken | Ran | Recorded | SlotFreed

  datatype Phase = Queued | Held(w: nat, stage: Stage) | Done

  /** History of one published task: whose call published it, where it is, and how often its callback ran. */
  datatype Record = Record(task: Task, caller: nat, phase: Phase, runs: nat)

  /** `capacity` 0 means unlimited; `batch` bounds the tasks a batch moves beyond its head. */
  datatype Config = Config(capacity: nat, batch: nat)

  datatype State = State(cfg: Config, mem: Memory, calls: seq<Call>, tasks: seq<Record>, workers: seq<Worker>,
                         waiters: seq<Waiter>)

  datatype Event =
    | Invoke(priority: Priority, group: Option<nat>)
    | Submit(c: nat, ch: Choice)
    | Work(w: nat, ch: Choice)
    | NewGroup
    | Close(g: nat)
    | Shutdown
    | StartWait(target: Target)
    | Wait(x: nat)

  ghost predicate Init(s: State) {
    && s.calls == [] && s.tasks == [] && s.waiters == []
    && s.mem.shutdown == false && s.mem.inFlight == 0 && s.mem.sleeping == 0 && s.mem.groups == []
    && s.mem.stats == Stats(0, 0, 0, 0, 0, 0, 0)
    && s.mem.q.high == [] && s.mem.q.normal == [] && s.mem.q.low == []
    && |s.workers| == |s.mem.q.deques| >= 1
    && (forall w :: 0 <= w < |s.workers| ==> s.workers[w] == NEW_WORKER)
    && (forall w :: 0 <= w < |s.mem.q.deques| ==> s.mem.q.deques[w] == [])
  }

  predicate Enabled(s: State, e: Event) {
    match e
    case Invoke(_, group) => group.Some? ==> group.value < |s.mem.groups|
    case Submit(c, _) => c < |s.calls| && !s.calls[c].pc.Returned?
    case Work(w, ch) => w < |s.workers| && s.workers[w].pc != Exited && ch.extra <= s.cfg.batch
    case NewGroup => true
    case Close(g) => g < |s.mem.groups|
    case Shutdown => true
    case StartWait(target) => target.OfGroup? ==> target.g < |s.mem.groups|
    case Wait(x) => x < |s.waiters| && !s.waiters[x].pc.Released?
  }

  function QueuedIds(tasks: seq<Record>): set<nat> {
    set i | 0 <= i < |tasks| && tasks[i].phase == Queued
  }

  /** The task a worker holds and how far it has got with it. */
  function Hand(pc: WorkerPc): Option<(Task, Stage)> {
    match pc
    case Stolen(_, t) => Some((t, Taken))
    case Retract(next) => if next.RunIt? then Some((next.task, Taken)) else None
    case Running(t) => Some((t, Taken))
    case NoteDone(t) => Some((t, Ran))
    case ReleaseSlot(t) => Some((t, Recorded))
    case ReleaseGroup(t) => Some((t, SlotFreed))
    case _ => None
  }

  function SetPhase(tasks: seq<Record>, id: nat, phase: Phase, ran: bool): seq<Record> {
    if id < |tasks| then
      tasks[id := tasks[id].(phase := phase, runs := if ran then tasks[id].runs + 1 else tasks[id].runs)]
    else tasks
  }

  /** History follows the worker's hand: a task it holds after the step is held, one it let go of is done. */
  function Follow(tasks: seq<Record>, w: nat, pc: WorkerPc, pc': WorkerPc): seq<Record> {
    match Hand(pc')
    case Some((t, stage)) => SetPhase(tasks, t.id, Held(w, stage), pc.Running?)
    case None => match Hand(pc)
      case Some((t, _)) => SetPhase(tasks, t.id, Done, false)
      case None => tasks
  }

  function SubmitStep(s: State, c: nat, ch: Choice): State
    requires c < |s.calls|
  {
    var call := s.calls[c];
    var next := |s.tasks|;
    var (m, r) := Exec(s.mem, CallOp(call, next), ch);
    s.(mem := m,
       calls := s.calls[c := call.(pc := CallAfter(call, s.cfg.capacity, next, r))],
       tasks := if call.pc.Publish? then s.tasks + [Record(Task(next, call.priority, call.group), c, Queued, 0)]
                else s.tasks)
  }

  function WorkStep(s: State, w: nat, ch: Choice): State
    requires w < |s.workers|
  {
    var me := s.workers[w];
    var (m, r) := Exec(s.mem, WorkerOp(w, me.pc), ch);
    var me' := WorkerAfter(me, w, |s.workers|, r, QueuedIds(s.tasks));
    s.(mem := m, workers := s.workers[w := me'], tasks := Follow(s.tasks, w, me.pc, me'.pc))
  }

  const NO_CHOICE := Choice(false, 0)

  function WaitStep(s: State, x: nat): State
    requires x < |s.waiters|
  {
    var waiter := s.waiters[x];
    s.(waiters := s.waiters[x := WaiterAfter(waiter, Exec(s.mem, WaiterOp(waiter), NO_CHOICE).1, |s.tasks|)])
  }

  function Next(s: State, e: Event): State
    requires Enabled(s, e)
  {
    match e
    case Invoke(priority, group) => s.(calls := s.calls + [Call(priority, group, Start)])
    case Submit(c, ch) => SubmitStep(s, c, ch)
    case Work(w, ch) => WorkStep(s, w, ch)
    case NewGroup => s.(mem := s.mem.(groups := s.mem.groups + [Group(0, false)]))
    case Close(g) => s.(mem := Exec(s.mem, StoreClosed(g), NO_CHOICE).0)
    case Shutdown => s.(mem := Exec(s.mem, StoreShutdown, NO_CHOICE).0)
    case StartWait(target) => s.(waiters := s.waiters + [Waiter(target, Check, |s.tasks|)])
    case Wait(x) => WaitStep(s, x)
  }

  ghost predicate Step(s: State, e: Event, s': State) {
    Enabled(s, e) && s' == Next(s, e)
  }

  ghost predicate StepAt(r: seq<State>, es: seq<Event>, i: nat)
    requires i < |es| && |r| == |es| + 1
  {
    Step(r[i], es[i], r[i + 1])
  }

  /** A run: `r` lists the states and `es` the events between them. */
  ghost predicate Run(r: seq<State>, es: seq<Event>) {
    |r| == |es| + 1 && forall i :: 0 <= i < |es| ==> StepAt(r, es, i)
  }

  /** Workers are started once and never added or removed. */
  lemma {:induction false} SameWorkers(r: seq<State>, es: seq<Event>, i: nat, j: nat)
    requires Run(r, es) && i <= j < |r|
    ensures |r[j].workers| == |r[i].workers|
  {
    if i < j {
      SameWorkers(r, es, i, j - 1);
      assert StepAt(r, es, j - 1);
    }
  }
}
